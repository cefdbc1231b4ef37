/** Every step either changes nothing or uses up a bounded amount of work. */
module Measure {
  import opened Wire
  import opened Roles
  import opened Machine
  import opened Safety

  function StageRank(stage: Stage): nat {
    match stage
    case OnWire => 4
    case Unexpected => 3
    case Claimed => 2
    case Matched => 1
    case Received => 0
  }

  /** Work left on a channel: posting, taking in, probing, matching, reading, receiving, aborting. */
  function ChannelRank(ts: seq<Transfer>): nat {
    if ts == [] then 7
    else StageRank(ts[0].stage) + (if ts[0].data.None? then 1 else 0) + (if ts[0].aborted then 0 else 1)
  }

  /** Bytes still to be written, delivered and taken. */
  function StreamRank(total: nat, st: Stream): int {
    3 * total - |st.sent| - st.arrived - st.taken
  }

  function ProcRank(p: Proc): int {
    KILLED - Loc(p.pc) + (if p.epOk then 1 else 0)
  }

  function SharedRank(cfg: Config, s: State): int {
    ChannelRank(s.cs) + ChannelRank(s.sc)
    + StreamRank(|Preamble(cfg)| + |TOKEN|, s.oobSC) + StreamRank(|TOKEN|, s.oobCS)
  }

  /** Locations to go, failure handlers to run, message stages and stream bytes outstanding. */
  function Rank(cfg: Config, s: State): int {
    ProcRank(s.c) + ProcRank(s.s) + SharedRank(cfg, s)
  }

  /** A local step stays put, only records the failure, or moves to a later location. */
  predicate Advances(p: Proc, q: Proc) {
    || q == p
    || (p.epOk && q == FailureSeen(p))
    || (Loc(q.pc) > Loc(p.pc) && (q.epOk ==> p.epOk))
  }

  lemma CommonAdvances(cfg: Config, r: Role, p: Proc, o: Obs)
    ensures Advances(p, CommonStep(cfg, r, p, o))
  {
    Locs();
    hide Loc;
  }

  lemma ClientAdvances(cfg: Config, p: Proc, o: Obs)
    ensures Advances(p, ClientStep(cfg, p, o))
  {
    hide Loc, CommonStep, LengthCheck, CopyInBounds, Advances;
    if p.pc in {CRecvLen, CAllocPeer, CRecvAddr, CCreateEp, CAllocOut, CPostSend} {
      EarlyAdvances(cfg, p, o);
    } else {
      LateAdvances(cfg, p, o);
    }
  }

  lemma EarlyAdvances(cfg: Config, p: Proc, o: Obs)
    requires p.pc in {CRecvLen, CAllocPeer, CRecvAddr, CCreateEp, CAllocOut, CPostSend}
    ensures Advances(p, ClientStep(cfg, p, o))
  {
    Locs();
    hide Loc, CommonStep, LengthCheck, CopyInBounds;
  }

  lemma LateAdvances(cfg: Config, p: Proc, o: Obs)
    requires p.pc !in {CRecvLen, CAllocPeer, CRecvAddr, CCreateEp, CAllocOut, CPostSend}
    ensures Advances(p, ClientStep(cfg, p, o))
  {
    hide Loc, CommonStep, LengthCheck, CopyInBounds;
    Locs();
    CommonAdvances(cfg, Client, p, o);
  }

  lemma ServerAdvances(cfg: Config, p: Proc, o: Obs)
    ensures Advances(p, ServerStep(cfg, p, o))
  {
    hide Loc, CommonStep, LengthCheck, CopyInBounds, Advances;
    if p.pc in {SSendLen, SSendAddr, SProbe, SAllocIn, SPostRecv, SWaitRecv, SAllocPeer, SCreateEp} {
      ReceiverAdvances(cfg, p, o);
    } else {
      SenderAdvances(cfg, p, o);
    }
  }

  lemma ReceiverAdvances(cfg: Config, p: Proc, o: Obs)
    requires p.pc in {SSendLen, SSendAddr, SProbe, SAllocIn, SPostRecv, SWaitRecv, SAllocPeer, SCreateEp}
    ensures Advances(p, ServerStep(cfg, p, o))
  {
    Locs();
    hide Loc, CommonStep, LengthCheck, CopyInBounds;
  }

  lemma SenderAdvances(cfg: Config, p: Proc, o: Obs)
    requires p.pc !in {SSendLen, SSendAddr, SProbe, SAllocIn, SPostRecv, SWaitRecv, SAllocPeer, SCreateEp}
    ensures Advances(p, ServerStep(cfg, p, o))
  {
    hide Loc, CommonStep, LengthCheck, CopyInBounds;
    Locs();
    CommonAdvances(cfg, Server, p, o);
  }

  predicate SameShared(s: State, t: State) {
    s.cs == t.cs && s.sc == t.sc && s.oobCS == t.oobCS && s.oobSC == t.oobSC && s.dangling == t.dangling
  }

  /** A step of r: its own move, and shared work used up if anything shared changed. */
  predicate StepOf(cfg: Config, s: State, t: State, r: Role) {
    && t.P(r.Peer()) == s.P(r.Peer())
    && Advances(s.P(r), t.P(r))
    && (SameShared(s, t) || SharedRank(cfg, t) < SharedRank(cfg, s))
  }

  lemma StepOfRank(cfg: Config, s: State, t: State, r: Role)
    requires StepOf(cfg, s, t, r)
    ensures t == s || Rank(cfg, t) < Rank(cfg, s)
  {
    hide Loc, ChannelRank, StreamRank;
  }

  /** Local steps after a shared change. */
  lemma LocalStepOf(cfg: Config, s: State, u: State, r: Role, o: Obs)
    requires u.c == s.c && u.s == s.s
    requires SameShared(s, u) || SharedRank(cfg, u) < SharedRank(cfg, s)
    ensures StepOf(cfg, s, Local(cfg, u, r, o), r)
  {
    if r.Client? { ClientAdvances(cfg, s.c, o); } else { ServerAdvances(cfg, s.s, o); }
    hide Advances, ClientStep, ServerStep, ChannelRank, StreamRank;
  }

  lemma BackgroundStepOf(cfg: Config, s: State, r: Role, e: Event)
    requires cfg.Valid() && Inv(cfg, s)
    ensures var t := Background(s, r, e); t.c == s.c && t.s == s.s
    ensures var t := Background(s, r, e); SameShared(s, t) || SharedRank(cfg, t) < SharedRank(cfg, s)
  {
    hide Inv, Loc, StreamRank, Move, SharedRank;
    AtMostOne(cfg, s);
    if e.MoveIn? && CanMove(s, r.Peer(), RndvGet) {
      MoveInv(cfg, s, r.Peer(), RndvGet);
      MoveRank(cfg, s, r.Peer());
    }
    if e.MoveOut? && CanMove(s, r, RndvPut) {
      MoveInv(cfg, s, r, RndvPut);
      MoveRank(cfg, s, r);
    }
    ArriveRank(cfg, s, r.Peer());
    hide CanMove;
  }

  lemma MoveRank(cfg: Config, s: State, from: Role)
    requires |s.Out(from)| <= 1 && Find(s.Out(from), Matched) < |s.Out(from)|
    requires s.P(from).heap.outMsg.Some? && s.P(from.Peer()).heap.inMsg.Some?
    requires s.Out(from)[Find(s.Out(from), Matched)].data.None?
    ensures var t := Move(s, from); t.c == s.c && t.s == s.s && SharedRank(cfg, t) < SharedRank(cfg, s)
  {
    hide Loc, StreamRank;
  }

  lemma ArriveRank(cfg: Config, s: State, from: Role)
    requires |s.Out(from)| <= 1
    ensures var k := Find(s.Out(from), OnWire);
            k < |s.Out(from)| ==>
              SharedRank(cfg, s.WithOut(from, SetStage(s.Out(from), k, Unexpected))) < SharedRank(cfg, s)
  {
    hide Loc, StreamRank;
  }

  lemma AtMostOne(cfg: Config, s: State)
    requires Inv(cfg, s)
    ensures |s.cs| <= 1 && |s.sc| <= 1
    ensures s.P(Client).pc.CPostSend? ==> s.cs == []
    ensures s.P(Server).pc.SPostSend? ==> s.sc == []
  {
    Locs();
    hide Loc, ProcOk, ClientOk, ServerOk, StreamsOk;
  }

  lemma PassStepOf(cfg: Config, s: State, r: Role, e: Event)
    requires cfg.Valid() && Inv(cfg, s)
    ensures StepOf(cfg, s, Pass(cfg, s, r, e), r)
  {
    BackgroundStepOf(cfg, s, r, e);
    LocalStepOf(cfg, s, s, r, Progress(PeerDown));
    hide Inv, Local, Background, SharedRank, Loc;
  }

  lemma SentStepOf(cfg: Config, s: State, r: Role, t: Transfer, o: Obs)
    requires s.Out(r) == [] && (t.data.None? ==> t.stage.OnWire?) && t.stage.OnWire?
    ensures StepOf(cfg, s, Local(cfg, s.WithOut(r, s.Out(r) + [t]), r, o), r)
  {
    LocalStepOf(cfg, s, s.WithOut(r, s.Out(r) + [t]), r, o);
    hide Local, Loc, StreamRank;
  }

  /** Replacing the only message by one with less left to do. */
  lemma LowerStepOf(cfg: Config, s: State, r: Role, from: Role, t: Transfer, o: Obs)
    requires |s.Out(from)| == 1 && ChannelRank([t]) < ChannelRank(s.Out(from))
    ensures StepOf(cfg, s, Local(cfg, s.WithOut(from, [t]), r, o), r)
  {
    LocalStepOf(cfg, s, s.WithOut(from, [t]), r, o);
    hide Local, Loc, StreamRank;
  }

  lemma WaitSendStepOf(cfg: Config, s: State, r: Role, e: Event)
    requires cfg.Valid() && Inv(cfg, s)
    ensures StepOf(cfg, s, WaitSendStep(cfg, s, r, e), r)
  {
    AtMostOne(cfg, s);
    hide Inv, Local, Pass, Loc, SharedRank, StepOf;
    if e.Complete? {
      LocalStepOf(cfg, s, s, r, Progress(SendDone(true)));
      Still(cfg, s, r);
    } else if e.Break? {
      AbortStepOf(cfg, s, r, Progress(SendDone(false)));
    } else {
      PassStepOf(cfg, s, r, e);
    }
  }

  lemma AbortStepOf(cfg: Config, s: State, r: Role, o: Obs)
    requires |s.Out(r)| <= 1
    ensures StepOf(cfg, s, Local(cfg, s.WithOut(r, AbortLast(s.Out(r))), r, o), r)
  {
    hide Local, Loc, SharedRank, StepOf;
    var ts := s.Out(r);
    if ts == [] || ts[0].aborted {
      assert AbortLast(ts) == ts;
      LocalStepOf(cfg, s, s.WithOut(r, ts), r, o);
    } else {
      assert AbortLast(ts) == [ts[0].(aborted := true)];
      LowerStepOf(cfg, s, r, r, ts[0].(aborted := true), o);
    }
  }

  lemma Still(cfg: Config, s: State, r: Role)
    ensures StepOf(cfg, s, s, r)
  {
    hide Loc;
  }

  lemma WaitRecvStepOf(cfg: Config, s: State, r: Role, e: Event)
    requires cfg.Valid() && Inv(cfg, s) && (s.P(r).pc.CWaitRecv? || s.P(r).pc.SWaitRecv?)
    ensures StepOf(cfg, s, WaitRecvStep(cfg, s, r, e), r)
  {
    hide Inv, Local, Pass, Loc, SharedRank, StepOf;
    AtMostOne(cfg, s);
    InBuffer(cfg, s, r);
    var inc := s.Out(r.Peer());
    var k := Find(inc, Matched);
    Still(cfg, s, r);
    if k < |inc| && (e.Complete? || e.Break?) {
      var t := inc[0].(stage := Received, aborted := inc[0].aborted || e.Break?);
      assert inc[k := t] == [t];
      LowerStepOf(cfg, s, r, r.Peer(), t, Progress(if e.Break? then RecvDone(false, [])
                                                   else if inc[0].data.Some? then RecvDone(true, inc[0].data.value)
                                                   else Nothing));
    } else if !e.Complete? && !e.Break? {
      PassStepOf(cfg, s, r, e);
    }
  }

  lemma ProbeStepOf(cfg: Config, s: State, u: State, r: Role)
    requires |u.Out(r.Peer())| <= 1 && Probeable(u.Out(r.Peer()))
    requires u.c == s.c && u.s == s.s
    requires SameShared(s, u) || SharedRank(cfg, u) < SharedRank(cfg, s)
    ensures StepOf(cfg, s, ProbeHit(cfg, u, r), r)
  {
    var inc := u.Out(r.Peer());
    var k := Find(inc, Unexpected);
    var v := u.WithOut(r.Peer(), SetStage(inc, k, Claimed));
    assert SetStage(inc, k, Claimed) == [inc[0].(stage := Claimed)];
    LocalStepOf(cfg, s, v, r, Probed(inc[k].len));
    hide Local, Loc, StreamRank;
  }

  lemma PostRecvStepOf(cfg: Config, s: State, r: Role, ch: Choice)
    requires cfg.Valid() && Inv(cfg, s)
    ensures StepOf(cfg, s, PostRecvStep(cfg, s, r, ch), r)
  {
    AtMostOne(cfg, s);
    hide Inv, Local, Loc, SharedRank, StepOf;
    var inc := s.Out(r.Peer());
    var k := Find(inc, Claimed);
    Still(cfg, s, r);
    LocalStepOf(cfg, s, s, r, Post(Refused));
    if ch.Ok? && k < |inc| {
      assert SetStage(inc, k, Matched) == [inc[0].(stage := Matched)];
      LowerStepOf(cfg, s, r, r.Peer(), inc[0].(stage := Matched), Post(Later));
    }
  }

  lemma TakeStepOf(cfg: Config, s: State, r: Role, n: nat)
    ensures StepOf(cfg, s, TakeBytes(cfg, s, r, n), r)
  {
    hide Local, StepOf, SharedRank;
    Still(cfg, s, r);
    var st := s.Oob(r.Peer());
    if st.Valid() && n <= st.Avail() {
      TakeRank(cfg, s, r.Peer(), n);
      LocalStepOf(cfg, s, s.WithOob(r.Peer(), st.(taken := st.taken + n)), r,
                  Recvd(st.sent[st.taken..st.taken + n], false));
    }
  }

  lemma TakeRank(cfg: Config, s: State, from: Role, n: nat)
    ensures var u := s.WithOob(from, s.Oob(from).(taken := s.Oob(from).taken + n));
            u == s || SharedRank(cfg, u) < SharedRank(cfg, s)
  {
    hide ChannelRank;
  }

  lemma RecvStepOf(cfg: Config, s: State, r: Role, need: nat, ch: Choice)
    ensures StepOf(cfg, s, OobRecvStep(cfg, s, r, need, ch), r)
  {
    hide StepOf, TakeBytes, Local;
    Still(cfg, s, r);
    TakeStepOf(cfg, s, r, if ch.Short? then ch.n else need);
    LocalStepOf(cfg, s, s, r, Recvd([], true));
  }

  lemma WriteStepOf(cfg: Config, s: State, r: Role, part: seq<byte>, o: Obs)
    ensures StepOf(cfg, s, Local(cfg, s.WithOob(r, s.Oob(r).(sent := s.Oob(r).sent + part)), r, o), r)
  {
    var u := s.WithOob(r, s.Oob(r).(sent := s.Oob(r).sent + part));
    if part == [] {
      assert s.Oob(r).sent + part == s.Oob(r).sent;
    }
    LocalStepOf(cfg, s, u, r, o);
    hide Local, Loc, ChannelRank;
  }

  lemma SendStepOf(cfg: Config, s: State, r: Role, msg: seq<byte>, ch: Choice)
    ensures StepOf(cfg, s, OobSendStep(cfg, s, r, msg, ch), r)
  {
    hide StepOf, Local;
    Still(cfg, s, r);
    WriteStepOf(cfg, s, r, msg, Sent(|msg|));
    if ch.Short? && ch.n < |msg| {
      WriteStepOf(cfg, s, r, msg[..ch.n], Sent(ch.n));
    }
    LocalStepOf(cfg, s, s, r, Sent(-1));
  }

  lemma CallStepOf(cfg: Config, s: State, r: Role, ch: Choice)
    ensures StepOf(cfg, s, AllocStep(cfg, s, r, ch), r)
    ensures StepOf(cfg, s, CreateStep(cfg, s, r, ch), r)
    ensures StepOf(cfg, s, PostOpStep(cfg, s, r, ch), r)
    ensures StepOf(cfg, s, CallStep(cfg, s, r, ch), r)
  {
    hide Local, StepOf, SharedRank, Flushed;
    Still(cfg, s, r);
    LocalStepOf(cfg, s, s, r, Alloc(ch.Ok?));
    LocalStepOf(cfg, s, s, r, Created(ch.Ok?));
    LocalStepOf(cfg, s, s, r, Post(if ch.Ok? then Later else if ch.Null? then Now else Refused));
    LocalStepOf(cfg, s, s, r, Called);
  }

  lemma PostSendStepOf(cfg: Config, s: State, r: Role, ch: Choice)
    requires s.Out(r) == []
    ensures StepOf(cfg, s, PostSendStep(cfg, s, r, ch), r)
  {
    hide Local, StepOf, SharedRank;
    Still(cfg, s, r);
    LocalStepOf(cfg, s, s, r, Post(Refused));
    var msg := if s.P(r).heap.outMsg.Some? then s.P(r).heap.outMsg.value.data else [];
    SentStepOf(cfg, s, r, Transfer(TAG, Eager, |msg|, Some(msg), OnWire, false), Post(Now));
    if ch.Request? {
      SentStepOf(cfg, s, r, Transfer(TAG, ch.kind, |msg|, if ch.kind.Eager? then Some(msg) else None, OnWire, false),
                 Post(Later));
    }
  }

  lemma WaitOpStepOf(cfg: Config, s: State, r: Role, e: Event)
    requires cfg.Valid() && Inv(cfg, s)
    ensures StepOf(cfg, s, WaitOpStep(cfg, s, r, e), r)
  {
    hide Inv, Local, Pass, StepOf, SharedRank, Flushed;
    Still(cfg, s, r);
    PassStepOf(cfg, s, r, e);
    LocalStepOf(cfg, s, s, r, Progress(OpDone(e.Complete?)));
  }

  lemma ActStepOf(cfg: Config, s: State, r: Role, ch: Choice)
    requires cfg.Valid() && Inv(cfg, s)
    ensures StepOf(cfg, s, Act1(cfg, s, r, ch), r)
  {
    hide Inv, Local, Pass, Background, TakeBytes, OobRecvStep, OobSendStep, PostRecvStep, WaitSendStep, WaitRecvStep,
      ProbeHit, Probeable, StepOf, SharedRank, Loc, PreProgressStep, ServerProbeStep, PollReady, WaitOpStep,
      AllocStep, CreateStep, PostOpStep, CallStep, PostSendStep;
    AtMostOne(cfg, s);
    RoleOf(cfg, s, r);
    PostRole(cfg, s, r);
    Still(cfg, s, r);
    var e := if ch.Ev? then ch.e else Idle;
    match s.P(r).pc
    case CRecvLen => RecvStepOf(cfg, s, r, HEADER, ch);
    case CRecvAddr => RecvStepOf(cfg, s, r, s.P(r).seen, ch);
    case BarrierRecv => RecvStepOf(cfg, s, r, |TOKEN|, ch);
    case SSendLen => SendStepOf(cfg, s, r, Bytes(|cfg.serverAddr|, HEADER), ch);
    case SSendAddr => SendStepOf(cfg, s, r, cfg.serverAddr, ch);
    case BarrierSend => SendStepOf(cfg, s, r, TOKEN, ch);
    case CAllocPeer | CAllocOut | CAllocIn | CAllocStr
      | SAllocIn | SAllocPeer | SAllocOut | SGenAlloc | CCreateEp | SCreateEp | SPostFlush | PostClose
      | CloseSock | ReleaseAddr | DestroyWorker | CleanupCtx => CallStepOf(cfg, s, r, ch);
    case CPostSend | SPostSend => PostSendStepOf(cfg, s, r, ch);
    case CPostRecv | SPostRecv => PostRecvStepOf(cfg, s, r, ch);
    case CWaitSend | SWaitSend => WaitSendStepOf(cfg, s, r, e);
    case CWaitRecv | SWaitRecv => WaitRecvStepOf(cfg, s, r, e);
    case CProbe =>
      PassStepOf(cfg, s, r, e);
      if Probeable(s.sc) { ProbeStepOf(cfg, s, s, Client); }
    case SProbe => ServerProbeStepOf(cfg, s, e);
    case SPreProgress => PreProgressStepOf(cfg, s, e);
    case SSpinFailed | SSpinKeepalive => PassStepOf(cfg, s, r, e);
    case SWaitFlush | WaitClose => WaitOpStepOf(cfg, s, r, e);
    case BarrierPoll =>
      BackgroundStepOf(cfg, s, r, e);
      LocalStepOf(cfg, s, Background(s, r, e), r, Readable(Nothing));
      UnmovedStepOf(cfg, s, Background(s, r, e), r);
    case Done | Killed =>
  }

  lemma PostRole(cfg: Config, s: State, r: Role)
    requires Inv(cfg, s)
    ensures s.P(r).pc.CPostSend? ==> r.Client?
    ensures s.P(r).pc.SPostSend? ==> r.Server?
  {
    hide OutOk, StreamsOk;
  }

  lemma UnmovedStepOf(cfg: Config, s: State, t: State, r: Role)
    requires t.c == s.c && t.s == s.s
    requires SameShared(s, t) || SharedRank(cfg, t) < SharedRank(cfg, s)
    ensures StepOf(cfg, s, t, r)
  {
    hide Loc, SharedRank;
  }

  lemma ServerProbeStepOf(cfg: Config, s: State, e: Event)
    requires cfg.Valid() && Inv(cfg, s) && s.s.pc.SProbe?
    ensures StepOf(cfg, s, ServerProbeStep(cfg, s, e), Server)
  {
    NoEndpoint(cfg, s);
    BackgroundStepOf(cfg, s, Server, e);
    BackgroundInv(cfg, s, Server, e);
    var t := Background(s, Server, e);
    AtMostOne(cfg, t);
    hide Inv, Local, Background, ProbeHit, Probeable, StepOf, SharedRank, Loc;
    UnmovedStepOf(cfg, s, t, Server);
    Still(cfg, s, Server);
    AtMostOne(cfg, s);
    if Probeable(t.cs) { ProbeStepOf(cfg, s, t, Server); }
    if Probeable(s.cs) { ProbeStepOf(cfg, s, s, Server); }
  }

  lemma NoEndpoint(cfg: Config, s: State)
    requires Inv(cfg, s) && s.s.pc.SProbe?
    ensures s.s.ep == NoEp
  {
    hide OutOk, StreamsOk;
  }

  lemma PreProgressStepOf(cfg: Config, s: State, e: Event)
    requires cfg.Valid() && Inv(cfg, s)
    ensures StepOf(cfg, s, PreProgressStep(cfg, s, e), Server)
  {
    BackgroundStepOf(cfg, s, Server, e);
    hide Inv, Local, Background, StepOf, SharedRank, Loc;
    Still(cfg, s, Server);
    LocalStepOf(cfg, s, s, Server, Progress(PeerDown));
    LocalStepOf(cfg, s, Background(s, Server, e), Server, Progress(Nothing));
  }

  /** The rank of a reachable state is a natural number. */
  lemma RankNonNegative(cfg: Config, s: State)
    requires Inv(cfg, s)
    ensures Rank(cfg, s) >= 0
  {
    Locs();
    assert |s.oobSC.sent| <= |Preamble(cfg) + TOKEN|;
    assert |s.oobCS.sent| <= |TOKEN|;
    hide Loc, ProcOk, ClientOk, ServerOk, ChannelOk, ChannelRank;
  }

  /** Every step, failing or not, leaves the state as it is or lowers the rank. */
  lemma NextRank(cfg: Config, s: State, a: Action)
    requires cfg.Valid() && Inv(cfg, s)
    ensures Next(cfg, s, a) == s || Rank(cfg, Next(cfg, s, a)) < Rank(cfg, s)
  {
    hide Inv, Act1, StepOf, Rank, DeliverStep;
    match a
    case Deliver(from, n) => DeliverRank(cfg, s, from, n);
    case Act(r, ch) =>
      ActStepOf(cfg, s, r, ch);
      StepOfRank(cfg, s, Act1(cfg, s, r, ch), r);
  }

  lemma DeliverRank(cfg: Config, s: State, from: Role, n: nat)
    ensures var t := DeliverStep(s, from, n); t == s || Rank(cfg, t) < Rank(cfg, s)
  {
    hide Loc, ChannelRank, ProcRank;
  }
}
