/** The branch after a failed send of the server, which waits for failure_handler in the one mode in which
    no handler was installed. */
module Spin {
  import opened Wire
  import opened Roles
  import opened Machine
  import opened Safety
  import opened Measure
  import opened Clean
  import opened Liveness
  import Hang

  /** failure_handler runs only where peer failure handling was asked for. */
  predicate HandlerAllowed(cfg: Config, a: Action) {
    a.Act? && a.ch == Ev(HandlerRuns) ==> cfg.Err(a.r).mode == HandlePeer
  }

  predicate IsHandledRun(cfg: Config, run: seq<State>, acts: seq<Action>) {
    && IsRun(cfg, run, acts)
    && forall i {:trigger acts[i]} :: 0 <= i < |acts| ==> HandlerAllowed(cfg, acts[i])
  }

  /** The server's send is refused, or it ends with an error. */
  predicate SendFails(s: State, a: Action) {
    a == Act(Server, if s.s.pc.SPostSend? then Fail else Ev(Break)) && (s.s.pc.SPostSend? || s.s.pc.SWaitSend?)
  }

  // -------------------------------------------------------------------------------------------
  // ep_status without failure handling
  // -------------------------------------------------------------------------------------------

  /** ep_status is untouched as long as no handler may run. */
  predicate HandlerFree(cfg: Config, s: State) {
    cfg.serverErr.mode == HandleNone ==> s.s.epOk
  }

  lemma StaysFree(cfg: Config, s: State, a: Action)
    requires Inv(cfg, s) && HandlerFree(cfg, s) && HandlerAllowed(cfg, a) && cfg.Valid()
    ensures HandlerFree(cfg, Next(cfg, s, a))
  {
    hide Inv, LocalStep, Act1, Advances;
    match a
    case Deliver(from, n) =>
    case Act(r, ch) =>
      if r.Client? { ActStepOf(cfg, s, Client, ch); } else if ch != Ev(HandlerRuns) { EpKept(cfg, s, ch); }
  }

  lemma EpCommon(cfg: Config, p: Proc, o: Obs)
    ensures CommonStep(cfg, Server, p, o).epOk == p.epOk
  {
  }

  lemma EpStep(cfg: Config, p: Proc, o: Obs)
    requires o != Progress(PeerDown)
    ensures LocalStep(cfg, Server, p, o).epOk == p.epOk
  {
    hide CommonStep, ClientStep, Frame, Zeros, Printf, ServerPayload, CopyPayload, LengthCheck, CopyInBounds;
    EpCommon(cfg, p, o);
  }

  lemma ProbeKeepsEp(cfg: Config, s: State, e: Event)
    requires !e.HandlerRuns?
    ensures ServerProbeStep(cfg, s, e).s.epOk == s.s.epOk
  {
    hide LocalStep, Background;
    BackgroundKeepsProcs(s, Server, e);
    var t := Background(s, Server, e);
    if Probeable(t.cs) { EpStep(cfg, t.s, Probed(t.cs[Find(t.cs, Unexpected)].len)); }
  }

  lemma PassKeepsEp(cfg: Config, s: State, e: Event)
    requires !e.HandlerRuns?
    ensures Pass(cfg, s, Server, e).s == s.s && PreProgressStep(cfg, s, e).s.epOk == s.s.epOk
    ensures BarrierPollStep(cfg, s, Server, e).s.epOk == s.s.epOk
  {
    hide LocalStep, Background, PollReady;
    EpStep(cfg, s.s, Progress(Nothing));
    EpStep(cfg, s.s, Readable(Nothing));
    BackgroundKeepsProcs(s, Server, e);
  }

  lemma WaitsKeepEp(cfg: Config, s: State, e: Event)
    requires !e.HandlerRuns?
    ensures WaitSendStep(cfg, s, Server, e).s.epOk == s.s.epOk && WaitRecvStep(cfg, s, Server, e).s.epOk == s.s.epOk
    ensures WaitOpStep(cfg, s, Server, e).s.epOk == s.s.epOk
  {
    hide LocalStep, Pass, Find, SetStage, AbortLast, Flushed;
    forall o: Obs | o != Progress(PeerDown)
      ensures LocalStep(cfg, Server, s.s, o).epOk == s.s.epOk
    {
      EpStep(cfg, s.s, o);
    }
    PassKeepsEp(cfg, s, e);
  }

  lemma IoKeepsEp(cfg: Config, s: State, need: nat, msg: seq<byte>, ch: Choice)
    ensures OobRecvStep(cfg, s, Server, need, ch).s.epOk == s.s.epOk
         && OobSendStep(cfg, s, Server, msg, ch).s.epOk == s.s.epOk
  {
    hide LocalStep;
    forall o: Obs | o != Progress(PeerDown)
      ensures LocalStep(cfg, Server, s.s, o).epOk == s.s.epOk
    {
      EpStep(cfg, s.s, o);
    }
  }

  lemma CallsKeepEp(cfg: Config, s: State, ch: Choice)
    ensures AllocStep(cfg, s, Server, ch).s.epOk == s.s.epOk && CreateStep(cfg, s, Server, ch).s.epOk == s.s.epOk
    ensures CallStep(cfg, s, Server, ch).s.epOk == s.s.epOk && PostOpStep(cfg, s, Server, ch).s.epOk == s.s.epOk
    ensures PostSendStep(cfg, s, Server, ch).s.epOk == s.s.epOk && PostRecvStep(cfg, s, Server, ch).s.epOk == s.s.epOk
  {
    hide LocalStep, Find, SetStage, Flushed, CloseFlags;
    forall o: Obs | o != Progress(PeerDown)
      ensures LocalStep(cfg, Server, s.s, o).epOk == s.s.epOk
    {
      EpStep(cfg, s.s, o);
    }
  }

  lemma EpKept(cfg: Config, s: State, ch: Choice)
    requires Inv(cfg, s) && ch != Ev(HandlerRuns)
    ensures Act1(cfg, s, Server, ch).s.epOk == s.s.epOk
  {
    hide Inv, OobRecvStep, OobSendStep, AllocStep, CreateStep, CallStep, PostOpStep, PostSendStep, PostRecvStep,
      WaitSendStep, WaitRecvStep, WaitOpStep, BarrierPollStep, PreProgressStep, ServerProbeStep, ClientProbeStep,
      Pass, Bytes;
    RoleOf(cfg, s, Server);
    var e := if ch.Ev? then ch.e else Idle;
    ProbeKeepsEp(cfg, s, e);
    PassKeepsEp(cfg, s, e);
    WaitsKeepEp(cfg, s, e);
    CallsKeepEp(cfg, s, ch);
    IoKeepsEp(cfg, s, |TOKEN|, TOKEN, ch);
    if s.s.pc.SSendLen? { IoKeepsEp(cfg, s, 0, Bytes(|cfg.serverAddr|, HEADER), ch); }
    if s.s.pc.SSendAddr? { IoKeepsEp(cfg, s, 0, cfg.serverAddr, ch); }
  }

  lemma {:induction false} FreeRun(cfg: Config, run: seq<State>, acts: seq<Action>, i: nat)
    requires cfg.Valid() && IsHandledRun(cfg, run, acts) && i < |run|
    ensures HandlerFree(cfg, run[i])
  {
    if i > 0 {
      hide Next, Inv, HandlerAllowed, HandlerFree;
      FreeRun(cfg, run, acts, i - 1);
      RunInv(cfg, run, acts, i - 1);
      StaysFree(cfg, run[i - 1], acts[i - 1]);
    } else {
      hide Inv;
    }
  }

  // -------------------------------------------------------------------------------------------
  // Into the spin, and never out of it
  // -------------------------------------------------------------------------------------------

  /** The branch on the failure mode. */
  lemma FailedSend(cfg: Config, s: State, a: Action)
    requires SendFails(s, a)
    ensures var p := Next(cfg, s, a).s;
            && (p.pc.SSpinFailed? <==> cfg.serverErr.failure == NoFailure && s.s.epOk)
            && (!p.pc.SSpinFailed? ==> p.pc.PostClose? && p.heap.outMsg == None)
            && p.ret == if cfg.serverErr.failure == NoFailure then 0 else -1
  {
    hide CommonStep;
  }

  lemma SpinStays(cfg: Config, s: State, a: Action)
    requires Accepted(cfg) && Inv(cfg, s) && s.s.pc.SSpinFailed? && HandlerAllowed(cfg, a)
    ensures Next(cfg, s, a).s.pc.SSpinFailed?
  {
    hide Inv, LocalStep, Act1, Advances;
    SpinMode(cfg, s);
    match a
    case Deliver(from, n) =>
    case Act(r, ch) =>
      if r.Client? { ActStepOf(cfg, s, Client, ch); } else { SpinPass(cfg, s, ch); }
  }

  lemma SpinMode(cfg: Config, s: State)
    requires Inv(cfg, s) && s.s.pc.SSpinFailed?
    ensures cfg.serverErr.failure == NoFailure && ToInt32(cfg.serverLen) >= 0
  {
    hide OutOk, StreamsOk, ClientOk, Loc;
  }

  lemma SpinPass(cfg: Config, s: State, ch: Choice)
    requires s.s.pc.SSpinFailed? && ch != Ev(HandlerRuns)
    ensures Act1(cfg, s, Server, ch).s == s.s
  {
    hide LocalStep;
  }

  lemma {:induction false} SpinsOn(cfg: Config, run: seq<State>, acts: seq<Action>, i: nat, j: nat)
    requires Accepted(cfg) && IsHandledRun(cfg, run, acts) && i <= j < |run| && run[i].s.pc.SSpinFailed?
    ensures run[j].s.pc.SSpinFailed?
    decreases j
  {
    hide Next, Inv, HandlerAllowed, Coupled;
    if i < j {
      SpinsOn(cfg, run, acts, i, j - 1);
      RunInv(cfg, run, acts, j - 1);
      SpinStays(cfg, run[j - 1], acts[j - 1]);
    }
  }

  /** The exact condition: after a failed send the server spins for the rest of the run if and only if it was
      given no failure mode; otherwise it frees its message and goes on to close its endpoint, with -1. */
  lemma SpinsExactly(cfg: Config, run: seq<State>, acts: seq<Action>, i: nat)
    requires Accepted(cfg) && IsHandledRun(cfg, run, acts) && i < |acts| && SendFails(run[i], acts[i])
    ensures (forall j :: i < j < |run| ==> run[j].s.pc.SSpinFailed?) <==> cfg.serverErr.failure == NoFailure
    ensures var p := run[i + 1].s;
            cfg.serverErr.failure != NoFailure ==> p.pc.PostClose? && p.ret == -1 && p.heap.outMsg == None
  {
    hide Next, HandlerAllowed, SendFails;
    FreeRun(cfg, run, acts, i);
    FailedSend(cfg, run[i], acts[i]);
    if cfg.serverErr.failure == NoFailure {
      forall j | i < j < |run|
        ensures run[j].s.pc.SSpinFailed?
      {
        SpinsOn(cfg, run, acts, i + 1, j);
      }
    }
  }

  // -------------------------------------------------------------------------------------------
  // A run into the spin
  // -------------------------------------------------------------------------------------------

  /** A server without failure mode whose text can be built reaches its send. */
  predicate CanSend(cfg: Config) {
    cfg.serverErr.failure == NoFailure && ToInt32(cfg.serverLen) >= 0
  }

  lemma ServerNears(cfg: Config, p: Proc, o: Obs)
    requires Accepted(cfg) && CanSend(cfg) && ServerOk(cfg, p) && CleanObs(cfg, Server, p, o) && !Bad(o)
    requires Loc(p.pc) < S_POST_SEND
    ensures Loc(ServerStep(cfg, p, o).pc) <= S_POST_SEND
  {
    Locs();
    hide Loc, CommonStep, Frame, Zeros, Bytes, Value, Printf, ServerPayload, CopyPayload;
  }

  /** No clean step takes it past the send. */
  lemma StepNears(cfg: Config, s: State, a: Action)
    requires Accepted(cfg) && CanSend(cfg) && Inv(cfg, s) && CleanInv(cfg, s) && IsClean(cfg, s, a)
    requires Loc(s.s.pc) < S_POST_SEND
    ensures Loc(Next(cfg, s, a).s.pc) <= S_POST_SEND
  {
    hide Loc, Inv, CleanInv, ServerStep, Act1, CleanProc, ServerOk, OutOk, StreamsOk, CleanObs, IsClean;
    if a.Act? {
      InvParts(cfg, s, Server);
      var o := Hang.ActHands(cfg, s, a.r, a.ch);
      if a.r.Server? && Next(cfg, s, a).s != s.s { ServerNears(cfg, s.s, o); }
    }
  }

  lemma AtSend(cfg: Config, s: State)
    requires Inv(cfg, s) && Loc(s.s.pc) == S_POST_SEND
    ensures s.s.pc.SPostSend?
  {
    Locs();
    hide Loc, ClientOk, OutOk, StreamsOk;
  }

  /** A clean run past the send passes through it. */
  lemma {:induction false} PassesSend(cfg: Config, run: seq<State>, acts: seq<Action>, n: nat) returns (i: nat)
    requires Accepted(cfg) && CanSend(cfg) && IsCleanRun(cfg, run, acts) && n < |run|
    requires Loc(run[n].s.pc) >= S_POST_SEND
    ensures i <= n && run[i].s.pc.SPostSend?
  {
    Locs();
    hide Loc, Inv, CleanInv, Next, IsClean;
    CleanRunInv(cfg, run, acts, n - 1);
    if Loc(run[n - 1].s.pc) >= S_POST_SEND {
      i := PassesSend(cfg, run, acts, n - 1);
    } else {
      StepNears(cfg, run[n - 1], acts[n - 1]);
      CleanRunInv(cfg, run, acts, n);
      AtSend(cfg, run[n]);
      i := n;
    }
  }

  /** A clean run to the server's send, then the failure. */
  lemma Spins(cfg: Config) returns (run: seq<State>, acts: seq<Action>)
    requires Accepted(cfg) && CanSend(cfg)
    ensures IsHandledRun(cfg, run, acts) && run[|acts|].s.pc.SSpinFailed?
  {
    hide Inv, CleanInv, Next, IsClean, Useful, Loc;
    var whole, all := Hang.RunsOut(cfg, [Init()], []);
    CleanRunInv(cfg, whole, all, |all|);
    if Loc(whole[|all|].s.pc) <= S_POST_SEND { EarlyServer(cfg, whole[|all|]); }
    var i := PassesSend(cfg, whole, all, |all|);
    CleanIsHandled(cfg, whole, all);
    var s := whole[i];
    run, acts := whole[..i + 1] + [Next(cfg, s, Act(Server, Fail))], all[..i] + [Act(Server, Fail)];
    forall k {:trigger acts[k]} | 0 <= k < |acts|
      ensures run[k + 1] == Next(cfg, run[k], acts[k]) && HandlerAllowed(cfg, acts[k])
    {
      assert k < i ==> acts[k] == all[k];
    }
    FreeRun(cfg, whole, all, i);
    FailedSend(cfg, s, Act(Server, Fail));
  }

  lemma CleanIsHandled(cfg: Config, run: seq<State>, acts: seq<Action>)
    requires IsCleanRun(cfg, run, acts)
    ensures IsHandledRun(cfg, run, acts)
  {
    hide Next;
  }

  ghost predicate CanSpin(cfg: Config) {
    exists run: seq<State>, acts :: IsHandledRun(cfg, run, acts) && run[|acts|].s.pc.SSpinFailed?
  }

  /** Some run comes to the spin if and only if the server has no failure mode and can build its text. */
  lemma SpinReached(cfg: Config)
    requires Accepted(cfg)
    ensures CanSpin(cfg) <==> CanSend(cfg)
  {
    hide Next, Inv, HandlerAllowed;
    if CanSpin(cfg) {
      var run: seq<State>, acts :| IsHandledRun(cfg, run, acts) && run[|acts|].s.pc.SSpinFailed?;
      RunInv(cfg, run, acts, |acts|);
      SpinMode(cfg, run[|acts|]);
    }
    if CanSend(cfg) {
      var run, acts := Spins(cfg);
    }
  }
}
