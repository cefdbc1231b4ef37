/** The processes of the joint machine are runs of the verified code: each is where its code is after some
    trace of results, every one of which answers the call that the code is making. */
module Link {
  import opened Wire
  import opened Roles
  import opened Machine
  import opened Safety
  import opened Measure
  import Runtime
  import MainCode

  /** p made its call, got a result of the kind that call has, and is q now; or nothing happened to it. */
  ghost predicate StepsBy(cfg: Config, r: Role, p: Proc, q: Proc) {
    q == p || exists o :: Runtime.CallAt(p.pc).Answers(o) && q == LocalStep(cfg, r, p, o)
  }

  /** A step of r: the other process is untouched, and r takes at most one result. */
  ghost predicate ByLocal(cfg: Config, s: State, t: State, r: Role) {
    t.P(r.Peer()) == s.P(r.Peer()) && StepsBy(cfg, r, s.P(r), t.P(r))
  }

  lemma LocalBy(cfg: Config, s: State, u: State, r: Role, o: Obs)
    requires u.c == s.c && u.s == s.s
    ensures ByLocal(cfg, s, u, r)
    ensures Runtime.CallAt(s.P(r).pc).Answers(o) ==> ByLocal(cfg, s, Local(cfg, u, r, o), r)
  {
    hide LocalStep, Runtime.CallAt;
  }

  /** The locations at which a call is a progress pass. */
  predicate Passes(pc: Pc) {
    Runtime.CallAt(pc).Pass? || Runtime.CallAt(pc).Probe?
  }

  lemma BackgroundBy(s: State, r: Role, e: Event)
    ensures Background(s, r, e).c == s.c && Background(s, r, e).s == s.s
  {
  }

  lemma PassBy(cfg: Config, s: State, r: Role, e: Event)
    requires Passes(s.P(r).pc)
    ensures ByLocal(cfg, s, Pass(cfg, s, r, e), r)
  {
    hide LocalStep, Background, Runtime.CallAt, ByLocal, Local;
    BackgroundBy(s, r, e);
    LocalBy(cfg, s, Background(s, r, e), r, Progress(PeerDown));
    LocalBy(cfg, s, s, r, Progress(PeerDown));
  }

  lemma WaitSendBy(cfg: Config, s: State, r: Role, e: Event)
    requires Passes(s.P(r).pc)
    ensures ByLocal(cfg, s, WaitSendStep(cfg, s, r, e), r)
  {
    hide LocalStep, Pass, AbortLast, Runtime.CallAt, ByLocal, Local, SendCanComplete;
    PassBy(cfg, s, r, e);
    LocalBy(cfg, s, s, r, Progress(SendDone(true)));
    LocalBy(cfg, s, s.WithOut(r, AbortLast(s.Out(r))), r, Progress(SendDone(false)));
  }

  lemma WaitOpBy(cfg: Config, s: State, r: Role, e: Event)
    requires Passes(s.P(r).pc)
    ensures ByLocal(cfg, s, WaitOpStep(cfg, s, r, e), r)
  {
    hide LocalStep, Pass, Flushed, Runtime.CallAt, ByLocal, Local;
    PassBy(cfg, s, r, e);
    LocalBy(cfg, s, s, r, Progress(OpDone(e.Complete?)));
  }

  lemma WaitRecvBy(cfg: Config, s: State, r: Role, e: Event)
    requires Passes(s.P(r).pc)
    ensures ByLocal(cfg, s, WaitRecvStep(cfg, s, r, e), r)
  {
    hide LocalStep, Pass, Runtime.CallAt, Local, ByLocal;
    PassBy(cfg, s, r, e);
    LocalBy(cfg, s, s.(dangling := true), r, Called);
    LocalBy(cfg, s, s, r, Called);
    var inc := s.Out(r.Peer());
    var k := Find(inc, Matched);
    if k < |inc| {
      if e.Break? {
        LocalBy(cfg, s, s.WithOut(r.Peer(), inc[k := inc[k].(stage := Received, aborted := true)]), r,
                Progress(RecvDone(false, [])));
      } else if inc[k].data.Some? {
        LocalBy(cfg, s, s.WithOut(r.Peer(), SetStage(inc, k, Received)), r,
                Progress(RecvDone(true, inc[k].data.value)));
      }
    }
  }

  lemma HitBy(cfg: Config, s: State, u: State, r: Role)
    requires u.c == s.c && u.s == s.s && Probeable(u.Out(r.Peer())) && Runtime.CallAt(s.P(r).pc).Probe?
    ensures ByLocal(cfg, s, ProbeHit(cfg, u, r), r)
  {
    hide LocalStep, ByLocal, Local, Runtime.CallAt;
    var inc := u.Out(r.Peer());
    var k := Find(inc, Unexpected);
    LocalBy(cfg, s, u.WithOut(r.Peer(), SetStage(inc, k, Claimed)), r, Probed(inc[k].len));
  }

  lemma ProbeBy(cfg: Config, s: State, e: Event)
    requires s.s.ep == NoEp && s.s.pc.SProbe?
    ensures ByLocal(cfg, s, ServerProbeStep(cfg, s, e), Server)
  {
    hide LocalStep, Background, Probeable, ProbeHit, ByLocal;
    BackgroundBy(s, Server, e);
    var t := Pass(cfg, s, Server, e);
    LocalBy(cfg, s, t, Server, Called);
    if Probeable(t.cs) {
      HitBy(cfg, s, t, Server);
    }
  }

  lemma PostSendBy(cfg: Config, s: State, r: Role, ch: Choice)
    requires Runtime.CallAt(s.P(r).pc).Posting?
    ensures ByLocal(cfg, s, PostSendStep(cfg, s, r, ch), r)
  {
    hide LocalStep, Runtime.CallAt;
  }

  lemma PostRecvBy(cfg: Config, s: State, r: Role, ch: Choice)
    requires Runtime.CallAt(s.P(r).pc).ReceivePosting?
    ensures ByLocal(cfg, s, PostRecvStep(cfg, s, r, ch), r)
  {
    hide LocalStep, Runtime.CallAt;
  }

  lemma PostOpBy(cfg: Config, s: State, r: Role, ch: Choice)
    requires Runtime.CallAt(s.P(r).pc).Posting?
    ensures ByLocal(cfg, s, PostOpStep(cfg, s, r, ch), r)
  {
    hide LocalStep, Flushed, Runtime.CallAt;
  }

  lemma RecvBy(cfg: Config, s: State, r: Role, ch: Choice, need: nat)
    requires Runtime.CallAt(s.P(r).pc).Receiving?
    ensures ByLocal(cfg, s, OobRecvStep(cfg, s, r, need, ch), r)
  {
    hide LocalStep, Runtime.CallAt;
  }

  lemma SendBy(cfg: Config, s: State, r: Role, ch: Choice, msg: seq<byte>)
    requires Runtime.CallAt(s.P(r).pc).Sending?
    ensures ByLocal(cfg, s, OobSendStep(cfg, s, r, msg, ch), r)
  {
    hide LocalStep, Runtime.CallAt;
  }

  lemma PlainBy(cfg: Config, s: State, r: Role, ch: Choice)
    ensures Runtime.CallAt(s.P(r).pc).Allocation? ==> ByLocal(cfg, s, AllocStep(cfg, s, r, ch), r)
    ensures Runtime.CallAt(s.P(r).pc).Creation? ==> ByLocal(cfg, s, CreateStep(cfg, s, r, ch), r)
    ensures Runtime.CallAt(s.P(r).pc).Plain? ==> ByLocal(cfg, s, CallStep(cfg, s, r, ch), r)
  {
    hide LocalStep, Runtime.CallAt;
  }

  lemma PollBy(cfg: Config, s: State, r: Role, e: Event)
    requires s.P(r).pc.BarrierPoll?
    ensures ByLocal(cfg, s, BarrierPollStep(cfg, s, r, e), r)
  {
    hide LocalStep, Background, PollReady, ByLocal;
    BackgroundBy(s, r, e);
    LocalBy(cfg, s, Background(s, r, e), r, Readable(Nothing));
  }

  lemma PreProgressBy(cfg: Config, s: State, e: Event)
    requires s.s.pc.SPreProgress?
    ensures ByLocal(cfg, s, PreProgressStep(cfg, s, e), Server)
  {
    hide LocalStep, Background, ByLocal;
    BackgroundBy(s, Server, e);
    LocalBy(cfg, s, s, Server, Progress(PeerDown));
    LocalBy(cfg, s, Background(s, Server, e), Server, Progress(Nothing));
  }

  lemma ActBy(cfg: Config, s: State, r: Role, ch: Choice)
    requires Inv(cfg, s)
    ensures ByLocal(cfg, s, Act1(cfg, s, r, ch), r)
  {
    hide Inv, LocalStep, ByLocal, PostSendStep, PostRecvStep, PostOpStep, OobRecvStep, OobSendStep, WaitSendStep,
      WaitRecvStep, WaitOpStep, Pass, ServerProbeStep, ProbeHit, Probeable, AllocStep, CreateStep, CallStep,
      BarrierPollStep, PreProgressStep;
    RoleOf(cfg, s, r);
    if s.s.pc.SProbe? {
      NoEndpoint(cfg, s);
    }
    var e := if ch.Ev? then ch.e else Idle;
    match s.P(r).pc
    case CRecvLen => RecvBy(cfg, s, r, ch, HEADER);
    case CRecvAddr => RecvBy(cfg, s, r, ch, s.P(r).seen);
    case BarrierRecv => RecvBy(cfg, s, r, ch, |TOKEN|);
    case SSendLen => SendBy(cfg, s, r, ch, Bytes(|cfg.serverAddr|, HEADER));
    case SSendAddr => SendBy(cfg, s, r, ch, cfg.serverAddr);
    case BarrierSend => SendBy(cfg, s, r, ch, TOKEN);
    case CPostSend | SPostSend => PostSendBy(cfg, s, r, ch);
    case CPostRecv | SPostRecv => PostRecvBy(cfg, s, r, ch);
    case SPostFlush | PostClose => PostOpBy(cfg, s, r, ch);
    case CWaitSend | SWaitSend => WaitSendBy(cfg, s, r, e);
    case CWaitRecv | SWaitRecv => WaitRecvBy(cfg, s, r, e);
    case SWaitFlush | WaitClose => WaitOpBy(cfg, s, r, e);
    case CProbe =>
      if Probeable(s.sc) { HitBy(cfg, s, s, Client); } else { PassBy(cfg, s, Client, e); }
    case SProbe => ProbeBy(cfg, s, e);
    case SSpinFailed | SSpinKeepalive => PassBy(cfg, s, r, e);
    case SPreProgress => PreProgressBy(cfg, s, e);
    case BarrierPoll => PollBy(cfg, s, r, e);
    case Done | Killed => LocalBy(cfg, s, s, r, Called);
    case _ => PlainBy(cfg, s, r, ch);
  }

  lemma NextBy(cfg: Config, s: State, a: Action, r: Role)
    requires Inv(cfg, s)
    ensures StepsBy(cfg, r, s.P(r), Next(cfg, s, a).P(r))
  {
    hide LocalStep, Inv, Act1, Runtime.CallAt;
    match a
    case Deliver(from, n) =>
    case Act(x, ch) => ActBy(cfg, s, x, ch);
  }

  /** Every result of the trace answers the call that the code is making when it gets it. */
  ghost predicate Answered(cfg: Config, r: Role, obs: seq<Obs>) {
    forall i {:trigger obs[i]} :: 0 <= i < |obs| ==>
      Runtime.CallAt(Runtime.Fold(cfg, r, Start(r), obs[..i]).pc).Answers(obs[i])
  }

  lemma AnsweredAt(cfg: Config, r: Role, obs: seq<Obs>, i: nat)
    requires Answered(cfg, r, obs) && i < |obs|
    ensures Runtime.CallAt(Runtime.Fold(cfg, r, Start(r), obs[..i]).pc).Answers(obs[i])
  {
    hide Runtime.CallAt, LocalStep;
  }

  lemma FoldMore(cfg: Config, r: Role, obs: seq<Obs>, o: Obs)
    requires Answered(cfg, r, obs) && Runtime.CallAt(Runtime.Fold(cfg, r, Start(r), obs).pc).Answers(o)
    ensures Runtime.Fold(cfg, r, Start(r), obs + [o]) == LocalStep(cfg, r, Runtime.Fold(cfg, r, Start(r), obs), o)
    ensures Answered(cfg, r, obs + [o])
  {
    hide LocalStep, Runtime.CallAt;
    assert (obs + [o])[..|obs|] == obs;
    forall i {:trigger (obs + [o])[i]} | 0 <= i < |obs + [o]|
      ensures Runtime.CallAt(Runtime.Fold(cfg, r, Start(r), (obs + [o])[..i]).pc).Answers((obs + [o])[i])
    {
      if i < |obs| {
        assert (obs + [o])[..i] == obs[..i] && (obs + [o])[i] == obs[i];
      }
    }
  }

  /** Along every run each process is where its code is after some trace of answers to its calls. */
  lemma {:induction false} RunIsFold(cfg: Config, run: seq<State>, acts: seq<Action>, i: nat, r: Role)
      returns (obs: seq<Obs>)
    requires cfg.Valid() && IsRun(cfg, run, acts) && i < |run|
    ensures Answered(cfg, r, obs) && run[i].P(r) == Runtime.Fold(cfg, r, Start(r), obs)
  {
    hide LocalStep, Inv, Next, Runtime.CallAt, StepsBy;
    if i == 0 {
      return [];
    }
    hide Runtime.Fold, Answered;
    obs := RunIsFold(cfg, run, acts, i - 1, r);
    RunInv(cfg, run, acts, i - 1);
    NextBy(cfg, run[i - 1], acts[i - 1], r);
    obs := Extend(cfg, r, obs, run[i].P(r));
  }

  lemma Extend(cfg: Config, r: Role, obs: seq<Obs>, q: Proc) returns (more: seq<Obs>)
    requires Answered(cfg, r, obs) && StepsBy(cfg, r, Runtime.Fold(cfg, r, Start(r), obs), q)
    ensures Answered(cfg, r, more) && q == Runtime.Fold(cfg, r, Start(r), more)
  {
    hide LocalStep, Runtime.CallAt, Runtime.Fold, Answered;
    more := obs;
    var p := Runtime.Fold(cfg, r, Start(r), obs);
    if q != p {
      var o :| Runtime.CallAt(p.pc).Answers(o) && q == LocalStep(cfg, r, p, o);
      FoldMore(cfg, r, obs, o);
      more := obs + [o];
    }
  }

  /** In every reachable state each process is where its code is after some trace of answers to its calls. */
  lemma CodeReaches(cfg: Config, s: State, r: Role) returns (obs: seq<Obs>)
    requires cfg.Valid() && Reachable(cfg, s)
    ensures Answered(cfg, r, obs) && s.P(r) == Runtime.Fold(cfg, r, Start(r), obs)
  {
    var run, acts :| IsRun(cfg, run, acts) && run[|acts|] == s;
    obs := RunIsFold(cfg, run, acts, |acts|, r);
  }

  lemma {:induction false} EndStays(cfg: Config, r: Role, obs: seq<Obs>, i: nat)
    requires i <= |obs|
    requires var pc := Runtime.Fold(cfg, r, Start(r), obs[..i]).pc; pc.Done? || pc.Killed?
    ensures Runtime.Fold(cfg, r, Start(r), obs) == Runtime.Fold(cfg, r, Start(r), obs[..i])
    decreases |obs|
  {
    if i == |obs| {
      assert obs[..i] == obs;
    } else {
      var front := obs[..|obs| - 1];
      assert front[..i] == obs[..i];
      EndStays(cfg, r, front, i);
      EndMoves(cfg, r, Runtime.Fold(cfg, r, Start(r), front), obs[|obs| - 1]);
      hide LocalStep;
    }
  }

  lemma EndMoves(cfg: Config, r: Role, p: Proc, o: Obs)
    requires p.pc.Done? || p.pc.Killed?
    ensures LocalStep(cfg, r, p, o) == p
  {
  }

  /** The code of either role, run on such a trace until it stops, ends or is killed, stands in the very
      state of the joint machine. */
  lemma CodeStands(cfg: Config, s: State, r: Role, p: Runtime.Process, obs: seq<Obs>)
    requires Answered(cfg, r, obs) && s.P(r) == Runtime.Fold(cfg, r, Start(r), obs)
    requires p.cfg == cfg && p.role == r && p.trace == obs && p.start == Start(r)
    requires p.Stopped() || (p.Follows() && (p.st.pc.Done? || p.st.pc.Killed?))
    ensures p.st == s.P(r)
  {
    hide LocalStep, Runtime.CallAt, Answered;
    assert obs[..|obs|] == obs;
    var k := p.pos;
    if p.st.pc.Done? || p.st.pc.Killed? {
      EndStays(cfg, r, obs, k);
    } else {
      if k < |obs| {
        AnsweredAt(cfg, r, obs, k);
      }
    }
  }

  /** main on the server, on the results that its process in the joint machine was given: it ends exactly
      as that process did, with the same exit code and the same blocks, or stands at the same call. */
  method ReplayServer(cfg: Config, ghost s: State, obs: seq<Obs>) returns (p: Runtime.Process, code: Wait<Option<int>>)
    requires Answered(cfg, Server, obs) && s.s == Runtime.Fold(cfg, Server, Start(Server), obs)
    ensures p.st == s.s
    ensures code.Got? && code.value.Some? ==> s.s.pc.Done? && s.s.ret == code.value.value
                                              && s.s.heap == p.heap && p.NoneOut()
    ensures code == Got(None) ==> s.s.pc.Killed?
  {
    hide LocalStep, Runtime.CallAt, Answered;
    p := new Runtime.Process(cfg, Server, obs, Start(Server));
    code := MainCode.ServerMain(p);
    CodeStands(cfg, s, Server, p, obs);
  }

  /** The same for main on the client, with what it printed. */
  method ReplayClient(cfg: Config, ghost s: State, obs: seq<Obs>) returns (p: Runtime.Process, code: Wait<Option<int>>)
    requires Answered(cfg, Client, obs) && s.c == Runtime.Fold(cfg, Client, Start(Client), obs)
    ensures p.st == s.c
    ensures code.Got? && code.value.Some? ==>
              && s.c.pc.Done? && s.c.ret == code.value.value && s.c.heap == p.heap && s.c.output == p.output
              && p.NoneOut()
    ensures code == Got(None) ==> s.c.pc.Killed?
  {
    hide LocalStep, Runtime.CallAt, Answered;
    p := new Runtime.Process(cfg, Client, obs, Start(Client));
    code := MainCode.ClientMain(p);
    CodeStands(cfg, s, Client, p, obs);
  }
}
