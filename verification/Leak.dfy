/** When a clean run can spare the server its leak: exactly the failure settings under which the receive of
    the client's address may be turned down. */
module Leak {
  import opened Wire
  import opened Roles
  import opened Machine
  import opened Safety
  import opened Measure
  import opened Clean
  import opened Liveness
  import Hang

  /** The client dies as soon as its address has left, and the server asked for peer failure handling. */
  predicate CanRefuse(cfg: Config) {
    cfg.clientErr.failure == RecvFailure && cfg.serverErr.failure != NoFailure
  }

  /** The client's send completes at once, and the server's receive is turned down. */
  predicate Guided(s: State, a: Action) {
    && (a.Act? && a.r.Client? && s.c.pc.CPostSend? ==> a.ch == Null)
    && (a.Act? && a.r.Server? && s.s.pc.SPostRecv? ==> a.ch == Fail)
  }

  /** The client has not sent or is dead, and the server has not copied its address and never will. */
  predicate NotCopied(s: State) {
    && (Loc(s.c.pc) <= C_POST_SEND || s.c.pc.Killed?)
    && !s.s.addrCopied
    && (Loc(s.s.pc) <= S_POST_RECV || CLOSE_SOCK <= Loc(s.s.pc) < KILLED)
  }

  lemma ClientSends(cfg: Config, p: Proc, o: Obs)
    requires Accepted(cfg) && CanRefuse(cfg) && ClientOk(cfg, p) && CleanObs(cfg, Client, p, o)
    requires Loc(p.pc) <= C_POST_SEND && p.epOk && !Bad(o) && (p.pc.CPostSend? ==> o == Post(Now))
    ensures var q := ClientStep(cfg, p, o); Loc(q.pc) <= C_POST_SEND || q.pc.Killed?
  {
    Locs();
    hide Loc, CommonStep, Frame, Zeros, Bytes, Value, PrintString;
  }

  lemma ServerRefuses(cfg: Config, p: Proc, o: Obs)
    requires Accepted(cfg) && ServerOk(cfg, p) && CleanObs(cfg, Server, p, o) && !p.addrCopied
    requires Loc(p.pc) <= S_POST_RECV || CLOSE_SOCK <= Loc(p.pc) < KILLED
    requires p.pc.SPostRecv? ==> Bad(o)
    ensures var q := LocalStep(cfg, Server, p, o);
            !q.addrCopied && (Loc(q.pc) <= S_POST_RECV || CLOSE_SOCK <= Loc(q.pc) < KILLED)
  {
    Locs();
    hide Loc, Frame, Zeros, Bytes, Value, CopyAddress, Printf, ServerPayload;
  }

  /** As long as the client has sent nothing, the server waits for its message. */
  lemma ServerWaits(cfg: Config, s: State)
    requires Inv(cfg, s) && CleanInv(cfg, s)
    ensures Loc(s.c.pc) <= C_POST_SEND ==> Loc(s.s.pc) <= S_PROBE && !Gone(s.s) && s.c.epOk
  {
    NotOkGone(cfg, s, Client);
    Locs();
    hide Loc, ClientOk, ServerOk, StreamsOk, CleanProc, CleanStream;
  }

  lemma ClientStays(cfg: Config, s: State, ch: Choice)
    requires Accepted(cfg) && CanRefuse(cfg) && Inv(cfg, s) && CleanInv(cfg, s) && IsClean(cfg, s, Act(Client, ch))
    requires NotCopied(s) && Guided(s, Act(Client, ch))
    ensures NotCopied(Act1(cfg, s, Client, ch))
  {
    hide Loc, Inv, CleanInv, ClientStep, Act1, CleanProc, ClientOk, OutOk, StreamsOk, CleanObs, IsClean;
    InvParts(cfg, s, Client);
    ServerWaits(cfg, s);
    Locs();
    var o := Hang.ActHands(cfg, s, Client, ch);
    if Act1(cfg, s, Client, ch).c != s.c && Loc(s.c.pc) <= C_POST_SEND { ClientSends(cfg, s.c, o); }
    else if s.c.pc.Killed? { KilledStays(cfg, s, ch); }
  }

  lemma KilledStays(cfg: Config, s: State, ch: Choice)
    requires s.c.pc.Killed?
    ensures Act1(cfg, s, Client, ch) == s
  {
  }

  lemma ServerStays(cfg: Config, s: State, ch: Choice)
    requires Accepted(cfg) && CanRefuse(cfg) && Inv(cfg, s) && CleanInv(cfg, s) && IsClean(cfg, s, Act(Server, ch))
    requires NotCopied(s) && Guided(s, Act(Server, ch))
    ensures NotCopied(Act1(cfg, s, Server, ch))
  {
    hide Loc, Inv, CleanInv, LocalStep, Act1, CleanProc, ServerOk, OutOk, StreamsOk, CleanObs;
    InvParts(cfg, s, Server);
    var o;
    if ch == Fail { o := Hang.TurnedDownHands(cfg, s, Server); } else { o := Hang.ActHands(cfg, s, Server, ch); }
    if Act1(cfg, s, Server, ch).s != s.s { ServerRefuses(cfg, s.s, o); }
  }

  lemma StaysNotCopied(cfg: Config, s: State, a: Action)
    requires Accepted(cfg) && CanRefuse(cfg) && Inv(cfg, s) && CleanInv(cfg, s) && IsClean(cfg, s, a)
    requires NotCopied(s) && Guided(s, a)
    ensures NotCopied(Next(cfg, s, a))
  {
    hide Loc, Inv, CleanInv, IsClean, Act1, Guided;
    if a.Act? {
      if a.r.Client? { ClientStays(cfg, s, a.ch); } else { ServerStays(cfg, s, a.ch); }
    }
  }

  /** Both answers that guide the run are clean and change something. */
  lemma GuideMoves(cfg: Config, s: State)
    requires Accepted(cfg) && CanRefuse(cfg) && Inv(cfg, s) && CleanInv(cfg, s) && NotCopied(s)
    ensures s.c.pc.CPostSend? ==> Moves(cfg, s, Act(Client, Null))
    ensures s.s.pc.SPostRecv? ==> Moves(cfg, s, Act(Server, Fail))
  {
    ServerWaits(cfg, s);
    Locs();
    hide Loc, Inv, CleanInv;
  }

  predicate IsGuidedRun(cfg: Config, run: seq<State>, acts: seq<Action>) {
    && IsCleanRun(cfg, run, acts)
    && forall i {:trigger acts[i]} :: 0 <= i < |acts| ==> Guided(run[i], acts[i])
  }

  lemma Extend(cfg: Config, run: seq<State>, acts: seq<Action>, a: Action)
    requires IsGuidedRun(cfg, run, acts) && IsClean(cfg, run[|acts|], a) && Guided(run[|acts|], a)
    ensures IsGuidedRun(cfg, run + [Next(cfg, run[|acts|], a)], acts + [a])
  {
    hide Next, IsClean, Guided;
  }

  /** A guided run goes on until nothing clean moves any more, and the address is never copied. */
  lemma {:induction false} RunsOut(cfg: Config, run: seq<State>, acts: seq<Action>)
      returns (whole: seq<State>, all: seq<Action>)
    requires Accepted(cfg) && CanRefuse(cfg) && IsGuidedRun(cfg, run, acts) && NotCopied(run[|acts|])
    ensures IsGuidedRun(cfg, whole, all) && NotCopied(whole[|all|]) && !Useful(cfg, whole[|all|])
    decreases Rank(cfg, run[|acts|])
  {
    var s := run[|acts|];
    CleanRunInv(cfg, run, acts, |acts|);
    hide Inv, CleanInv, Next, IsClean, Rank, NotCopied;
    RankNonNegative(cfg, s);
    if Useful(cfg, s) {
      var a :| Moves(cfg, s, a);
      if !Guided(s, a) {
        GuideMoves(cfg, s);
        a := Act(a.r, if a.r.Client? then Null else Fail);
      }
      Extend(cfg, run, acts, a);
      NextRank(cfg, s, a);
      StaysNotCopied(cfg, s, a);
      whole, all := RunsOut(cfg, run + [Next(cfg, s, a)], acts + [a]);
    } else {
      whole, all := run, acts;
    }
  }

  lemma InitNotCopied()
    ensures NotCopied(Init())
  {
    Locs();
    hide Loc;
  }

  /** With these settings some clean run ends the server without a copy of the address, and without a block. */
  lemma EndsWithout(cfg: Config) returns (s: State)
    requires Accepted(cfg) && CanRefuse(cfg)
    ensures CleanReachable(cfg, s) && s.s.pc.Done? && s.s.heap == EMPTY
  {
    InitNotCopied();
    hide Inv, CleanInv, Next, IsClean, Loc, Useful, Stuck;
    Locs();
    var run, acts := RunsOut(cfg, [Init()], []);
    s := run[|acts|];
    assert IsCleanRun(cfg, run, acts);
    CleanRunInv(cfg, run, acts, |acts|);
    AtEnd(cfg, s);
  }

  lemma AtEnd(cfg: Config, s: State)
    requires Accepted(cfg) && CanRefuse(cfg) && Inv(cfg, s) && CleanInv(cfg, s) && NotCopied(s) && !Useful(cfg, s)
    ensures s.s.pc.Done? && s.s.heap == EMPTY
  {
    hide CleanInv, Useful;
    InvNotStuck(cfg, s);
    Locs();
    hide Loc, ClientOk, OutOk, StreamsOk;
  }

  /** The server's leak in clean runs: every server that ends still owns its copy of the client's address if
      and only if the receive of that address cannot be turned down. */
  lemma LeaksExactly(cfg: Config)
    requires Accepted(cfg)
    ensures (forall s :: CleanReachable(cfg, s) && s.s.pc.Done? ==> s.s.heap == PeerOnly(cfg.clientAddr))
            <==> !CanRefuse(cfg)
  {
    hide CleanReachable;
    if CanRefuse(cfg) {
      var s := EndsWithout(cfg);
    } else {
      forall s | CleanReachable(cfg, s) && s.s.pc.Done?
        ensures s.s.heap == PeerOnly(cfg.clientAddr)
      {
        ServerLeaks(cfg, s);
      }
    }
  }

  /** Whenever the server ends in a clean run it owns the copy if it made one, and it made one unless the
      receive could be turned down. */
  lemma ServerLeaks(cfg: Config, s: State)
    requires Accepted(cfg) && CleanReachable(cfg, s) && s.s.pc.Done?
    ensures s.s.heap == PeerOnly(cfg.clientAddr) <==> s.s.addrCopied
    ensures !CanRefuse(cfg) ==> s.s.heap == PeerOnly(cfg.clientAddr)
  {
    CleanReachableInv(cfg, s);
    Locs();
    hide Loc, Next, OutOk, StreamsOk, CleanOut, CleanStream, ClientOk, CleanReachable;
  }
}
