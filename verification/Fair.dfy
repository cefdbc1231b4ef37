/** Infinite schedules: fair clean runs of live configurations finish, and how they finish. */
module Fair {
  import opened Wire
  import opened Roles
  import opened Machine
  import opened Safety
  import opened Measure
  import opened Clean
  import opened Liveness
  import Guarantees
  import Hang
  import Leak

  type Schedule = nat -> Action

  function StateAt(cfg: Config, b: Schedule, n: nat): State {
    if n == 0 then Init() else Next(cfg, StateAt(cfg, b, n - 1), b(n - 1))
  }

  /** Who makes a step: a process, or the network carrying one of the two streams. */
  datatype Agent = Network(from: Role) | Process(role: Role)

  function AgentOf(a: Action): Agent {
    match a
    case Deliver(from, _) => Network(from)
    case Act(r, _) => Process(r)
  }

  ghost predicate CanMoveNow(cfg: Config, s: State, agent: Agent) {
    exists a :: AgentOf(a) == agent && Moves(cfg, s, a)
  }

  predicate MovesAt(cfg: Config, b: Schedule, n: nat, agent: Agent) {
    AgentOf(b(n)) == agent && Moves(cfg, StateAt(cfg, b, n), b(n))
  }

  ghost predicate Served(cfg: Config, b: Schedule, n: nat, agent: Agent) {
    exists m: nat :: n <= m && (!CanMoveNow(cfg, StateAt(cfg, b, m), agent) || MovesAt(cfg, b, m, agent))
  }

  /** Weak fairness: no agent can move for ever without moving. For a process this covers its progress
      calls, the failure detector and the completion of pending operations; for the network, delivery. */
  ghost predicate IsFair(cfg: Config, b: Schedule) {
    forall n: nat, agent :: Served(cfg, b, n, agent)
  }

  ghost predicate IsCleanSchedule(cfg: Config, b: Schedule) {
    forall n: nat :: IsClean(cfg, StateAt(cfg, b, n), b(n))
  }

  lemma {:induction false} StateInv(cfg: Config, b: Schedule, n: nat)
    requires Accepted(cfg) && IsCleanSchedule(cfg, b)
    ensures Inv(cfg, StateAt(cfg, b, n)) && CleanInv(cfg, StateAt(cfg, b, n)) && Rank(cfg, StateAt(cfg, b, n)) >= 0
  {
    hide Inv, CleanInv, Next, IsClean, Rank, StateAt;
    if n == 0 {
      StartAt(cfg, b);
      InitInv(cfg);
      InitClean(cfg);
    } else {
      StateInv(cfg, b, n - 1);
      StepAt(cfg, b, n - 1);
      NextInv(cfg, StateAt(cfg, b, n - 1), b(n - 1));
      NextClean(cfg, StateAt(cfg, b, n - 1), b(n - 1));
    }
    RankNonNegative(cfg, StateAt(cfg, b, n));
  }

  lemma StartAt(cfg: Config, b: Schedule)
    ensures StateAt(cfg, b, 0) == Init()
  {
  }

  lemma StepAt(cfg: Config, b: Schedule, n: nat)
    ensures StateAt(cfg, b, n + 1) == Next(cfg, StateAt(cfg, b, n), b(n))
  {
    hide Next;
  }

  /** Nothing changed, or the rank went down. */
  predicate SameOrLess(cfg: Config, s: State, t: State) {
    t == s || Rank(cfg, t) < Rank(cfg, s)
  }

  lemma RankAt(cfg: Config, b: Schedule, n: nat)
    requires Accepted(cfg) && IsCleanSchedule(cfg, b)
    ensures SameOrLess(cfg, StateAt(cfg, b, n), StateAt(cfg, b, n + 1))
  {
    hide Next, StateAt, IsCleanSchedule, Inv, CleanInv, Rank;
    StateInv(cfg, b, n);
    StepAt(cfg, b, n);
    NextRank(cfg, StateAt(cfg, b, n), b(n));
  }

  /** From n to m nothing changes, or some step in between lowers the rank. */
  lemma {:induction false} SameOrLower(cfg: Config, b: Schedule, n: nat, m: nat) returns (k: nat)
    requires Accepted(cfg) && IsCleanSchedule(cfg, b) && n <= m
    ensures n <= k <= m
    ensures StateAt(cfg, b, m) == StateAt(cfg, b, n) || Rank(cfg, StateAt(cfg, b, k)) < Rank(cfg, StateAt(cfg, b, n))
    decreases m - n
  {
    hide StateAt, IsCleanSchedule, Rank;
    k := m;
    if n < m {
      k := SameOrLower(cfg, b, n, m - 1);
      RankAt(cfg, b, m - 1);
      if StateAt(cfg, b, m - 1) == StateAt(cfg, b, n) {
        k := m;
      }
    }
  }

  /** If an agent can move now, fairness brings a later point of lower rank. */
  lemma LowerLater(cfg: Config, b: Schedule, n: nat, a: Action) returns (k: nat)
    requires Accepted(cfg) && IsCleanSchedule(cfg, b) && IsFair(cfg, b) && Moves(cfg, StateAt(cfg, b, n), a)
    ensures n < k && Rank(cfg, StateAt(cfg, b, k)) < Rank(cfg, StateAt(cfg, b, n))
  {
    hide StateAt, IsCleanSchedule, Rank, Next, IsClean;
    assert Served(cfg, b, n, AgentOf(a));
    hide IsFair;
    var m: nat :| n <= m && (!CanMoveNow(cfg, StateAt(cfg, b, m), AgentOf(a)) || MovesAt(cfg, b, m, AgentOf(a)));
    k := SameOrLower(cfg, b, n, m);
    if StateAt(cfg, b, m) == StateAt(cfg, b, n) {
      assert CanMoveNow(cfg, StateAt(cfg, b, m), AgentOf(a));
      StepAt(cfg, b, m);
      RankAt(cfg, b, m);
      k := m + 1;
    }
  }

  lemma {:induction false} FinishesAfter(cfg: Config, b: Schedule, n: nat) returns (end: nat)
    requires Accepted(cfg) && LiveConfig(cfg) && IsCleanSchedule(cfg, b) && IsFair(cfg, b)
    ensures n <= end && Finished(StateAt(cfg, b, end))
    decreases Rank(cfg, StateAt(cfg, b, n))
  {
    hide StateAt, IsCleanSchedule, IsFair, Rank, Next, IsClean, Inv, CleanInv, Finished;
    StateInv(cfg, b, n);
    InvNotStuck(cfg, StateAt(cfg, b, n));
    if Finished(StateAt(cfg, b, n)) {
      return n;
    }
    var a :| Moves(cfg, StateAt(cfg, b, n), a);
    var k := LowerLater(cfg, b, n, a);
    StateInv(cfg, b, k);
    end := FinishesAfter(cfg, b, k);
  }

  ghost predicate Finishes(cfg: Config, b: Schedule) {
    exists n: nat :: Finished(StateAt(cfg, b, n))
  }

  /** Termination: in a live configuration every fair clean schedule ends both processes. */
  lemma FairRunsFinish(cfg: Config, b: Schedule)
    requires Accepted(cfg) && LiveConfig(cfg) && IsCleanSchedule(cfg, b) && IsFair(cfg, b)
    ensures Finishes(cfg, b)
  {
    hide StateAt, IsCleanSchedule, IsFair, Finished, LiveConfig, Accepted;
    var n := FinishesAfter(cfg, b, 0);
  }

  // -------------------------------------------------------------------------------------------
  // The converse
  // -------------------------------------------------------------------------------------------

  /** A finite run, and then nothing but empty deliveries. */
  function Follow(acts: seq<Action>): Schedule {
    (n: nat) => if n < |acts| then acts[n] else Deliver(Client, 0)
  }

  lemma {:induction false} FollowAt(cfg: Config, run: seq<State>, acts: seq<Action>, n: nat)
    requires IsRun(cfg, run, acts)
    ensures StateAt(cfg, Follow(acts), n) == run[if n < |acts| then n else |acts|]
  {
    hide Next, StateAt;
    if n == 0 {
      StartAt(cfg, Follow(acts));
    } else {
      FollowAt(cfg, run, acts, n - 1);
      StepAt(cfg, Follow(acts), n - 1);
      DeliverNothing(cfg, run[|acts|]);
      assert n <= |acts| ==> run[n] == Next(cfg, run[n - 1], acts[n - 1]);
    }
  }

  lemma DeliverNothing(cfg: Config, s: State)
    ensures Next(cfg, s, Deliver(Client, 0)) == s
  {
  }

  /** A clean run to a stuck state, followed by nothing, is a fair clean schedule that never finishes. */
  lemma FollowStuck(cfg: Config, run: seq<State>, acts: seq<Action>)
    requires IsCleanRun(cfg, run, acts) && Stuck(cfg, run[|acts|])
    ensures IsCleanSchedule(cfg, Follow(acts)) && IsFair(cfg, Follow(acts))
    ensures !Finishes(cfg, Follow(acts))
  {
    hide StateAt, Finished, Next, IsClean, Useful, Served;
    var b := Follow(acts);
    forall n: nat
      ensures IsClean(cfg, StateAt(cfg, b, n), b(n)) && !Finished(StateAt(cfg, b, n))
    {
      FollowAt(cfg, run, acts, n);
      Nothing(cfg, run[|acts|]);
      if Finished(StateAt(cfg, b, n)) {
        FinishedLater(cfg, run, acts, if n < |acts| then n else |acts|);
      }
    }
    forall n: nat, agent: Agent
      ensures Served(cfg, b, n, agent)
    {
      var m := if n < |acts| then |acts| else n;
      FollowAt(cfg, run, acts, m);
      NoneMoves(cfg, b, m, n, agent);
    }
  }

  lemma Nothing(cfg: Config, s: State)
    ensures IsClean(cfg, s, Deliver(Client, 0))
  {
  }

  lemma NoneMoves(cfg: Config, b: Schedule, m: nat, n: nat, agent: Agent)
    requires n <= m && !Useful(cfg, StateAt(cfg, b, m))
    ensures Served(cfg, b, n, agent)
  {
    hide StateAt, Moves, MovesAt;
    assert !CanMoveNow(cfg, StateAt(cfg, b, m), agent);
  }

  /** Ended processes stay as they are. */
  lemma {:induction false} FinishedLater(cfg: Config, run: seq<State>, acts: seq<Action>, n: nat)
    requires IsRun(cfg, run, acts) && n <= |acts| && Finished(run[n])
    ensures Finished(run[|acts|])
    decreases |acts| - n
  {
    hide Next, Finished;
    if n < |acts| {
      FinishedStays(cfg, run[n], acts[n]);
      FinishedLater(cfg, run, acts, n + 1);
    }
  }

  lemma FinishedStays(cfg: Config, s: State, a: Action)
    requires Finished(s)
    ensures Finished(Next(cfg, s, a))
  {
  }

  /** The exact condition for termination: every fair clean schedule ends both processes if and only if the
      configuration is live. */
  lemma FinishExactly(cfg: Config)
    requires Accepted(cfg)
    ensures LiveConfig(cfg) <==>
            forall b: Schedule :: IsCleanSchedule(cfg, b) && IsFair(cfg, b) ==> Finishes(cfg, b)
  {
    hide IsCleanSchedule, IsFair, StateAt, Finished, IsClean, Next, Stuck;
    if LiveConfig(cfg) {
      forall b: Schedule | IsCleanSchedule(cfg, b) && IsFair(cfg, b)
        ensures Finishes(cfg, b)
      {
        FairRunsFinish(cfg, b);
      }
    } else {
      var s := Hang.Hangs(cfg);
      var run, acts :| IsCleanRun(cfg, run, acts) && run[|acts|] == s;
      FollowStuck(cfg, run, acts);
      var b := Follow(acts);
      assert IsCleanSchedule(cfg, b) && IsFair(cfg, b) && !Finishes(cfg, b);
    }
  }

  // -------------------------------------------------------------------------------------------
  // Outcomes
  // -------------------------------------------------------------------------------------------

  /** Without failure emulation a finished clean run succeeded on both sides: both role functions and
      both barriers returned 0, and the client copied the server's text and handed it to printf. */
  lemma BothSucceed(cfg: Config, s: State)
    requires Accepted(cfg) && CleanReachable(cfg, s) && Finished(s)
    requires cfg.clientErr.failure == NoFailure && cfg.serverErr.failure == NoFailure && ToInt32(cfg.serverLen) >= 0
    ensures s.c.pc.Done? && s.s.pc.Done?
    ensures s.c.roleRet == Some(0) && s.s.roleRet == Some(0)
    ensures s.c.barrier == Some(0) && s.s.barrier == Some(0) && s.c.ret == 0 && s.s.ret == 0
    ensures cfg.clientLen <= cfg.serverLen ==>
              && s.c.copied == Some(ServerPayload(cfg.serverLen)[..cfg.clientLen])
              && s.c.output == Some(Printf(ServerPayload(cfg.serverLen)[..cfg.clientLen]))
  {
    CleanReachableInv(cfg, s);
    ClientPc(cfg, s);
    Locs();
    hide Loc, Next, OutOk, StreamsOk, CleanOut;
  }

  /** The exact condition: without failure emulation, and with a copy inside the message, some clean run
      prints past the client's string if and only if the string is empty or shorter than the text. */
  lemma OverrunExactly(cfg: Config)
    requires Accepted(cfg) && cfg.clientErr.failure == NoFailure && cfg.serverErr.failure == NoFailure
    requires ToInt32(cfg.serverLen) >= 0 && cfg.clientLen <= cfg.serverLen
    ensures (exists s :: CleanReachable(cfg, s) && s.c.output == Some(PastEnd)) <==>
            cfg.clientLen == 0 || cfg.clientLen < ToInt32(cfg.serverLen)
  {
    hide CleanReachable, Printf, Stuck;
    forall s | CleanReachable(cfg, s) && s.c.output == Some(PastEnd)
      ensures cfg.clientLen == 0 || cfg.clientLen < ToInt32(cfg.serverLen)
    {
      CleanIsReachable(cfg, s);
      Guarantees.PrintStaysInside(cfg, s);
    }
    var s := Ends(cfg);
    BothSucceed(cfg, s);
    CleanIsReachable(cfg, s);
    Guarantees.PrintStaysInside(cfg, s);
  }

  /** The copy past the message, likewise exactly: without failure emulation some clean run reads past the
      message if and only if one was sent and the client asked for more than it holds. */
  lemma OverreadExactly(cfg: Config)
    requires Accepted(cfg) && cfg.clientErr.failure == NoFailure && cfg.serverErr.failure == NoFailure
    ensures (exists s :: CleanReachable(cfg, s) && s.c.overread) <==>
            ToInt32(cfg.serverLen) >= 0 && cfg.clientLen > cfg.serverLen
  {
    hide CleanReachable;
    forall s | CleanReachable(cfg, s) && s.c.overread
      ensures ToInt32(cfg.serverLen) >= 0 && cfg.clientLen > cfg.serverLen
    {
      OverreadMeans(cfg, s);
    }
    if ToInt32(cfg.serverLen) >= 0 && cfg.clientLen > cfg.serverLen {
      hide Stuck;
      var s := Ends(cfg);
      BothSucceed(cfg, s);
      CleanIsReachable(cfg, s);
      Guarantees.StringDelivered(cfg, s);
    }
  }

  lemma OverreadMeans(cfg: Config, s: State)
    requires Accepted(cfg) && CleanReachable(cfg, s) && s.c.overread
    ensures ToInt32(cfg.serverLen) >= 0 && cfg.clientLen > cfg.serverLen
  {
    CleanReachableInv(cfg, s);
    Locs();
    hide Loc, CleanReachable, CleanInv, ServerOk, OutOk, StreamsOk, Printf, ServerPayload;
  }

  lemma CleanIsReachable(cfg: Config, s: State)
    requires CleanReachable(cfg, s)
    ensures Reachable(cfg, s)
  {
    var run, acts :| IsCleanRun(cfg, run, acts) && run[|acts|] == s;
    assert IsRun(cfg, run, acts);
  }

  /** A live configuration has a clean run that ends both processes. */
  lemma Ends(cfg: Config) returns (s: State)
    requires Accepted(cfg) && LiveConfig(cfg)
    ensures CleanReachable(cfg, s) && Finished(s)
  {
    hide Useful, Finished, Next, IsClean;
    var run, acts := Hang.RunsOut(cfg, [Init()], []);
    s := run[|acts|];
    assert IsCleanRun(cfg, run, acts);
    NeverStuck(cfg, s);
  }

  /** The survivor of an injected kill has returned from its role function without entering the barrier, and
      closed its endpoint with the force flag, if its creation was not turned down already. */
  lemma SurvivorOutcome(cfg: Config, s: State, r: Role)
    requires Accepted(cfg) && CleanReachable(cfg, s) && cfg.Failure(r) != NoFailure
    requires s.P(r).pc.Done?
    ensures Survived(s.P(r))
  {
    CleanReachableInv(cfg, s);
    hide Next, OutOk, StreamsOk, CleanOut, CleanStream, ClientOk, ServerOk, CleanProc, Survived;
    if r.Client? { ClientSurvived(cfg, s.c); } else { ServerSurvived(cfg, s.s); }
  }

  /** Out of the role function, never in the barrier, the endpoint closed by force if and only if it was
      created, and the socket, the worker's address, the worker and the context released. */
  predicate Survived(p: Proc) {
    && p.roleRet.Some? && p.barrier == None
    && ((p.ep.Closed? && p.ep.force) <==> p.ep != NoEp)
    && p.res == Resources(false, false, false, false)
  }

  lemma ClientSurvived(cfg: Config, p: Proc)
    requires Accepted(cfg) && ClientOk(cfg, p) && CleanProc(cfg, Client, p) && cfg.Failure(Client) != NoFailure
         && p.pc.Done?
    ensures Survived(p)
  {
    Locs();
    hide Loc;
  }

  lemma ServerSurvived(cfg: Config, p: Proc)
    requires Accepted(cfg) && ServerOk(cfg, p) && CleanProc(cfg, Server, p) && cfg.Failure(Server) != NoFailure
         && p.pc.Done?
    ensures Survived(p)
  {
    Locs();
    hide Loc;
  }

  /** The server in the send failure mode never sends, and it ends by its kill unless the client was killed
      first and took the server's receive with it. */
  lemma SendModeKills(cfg: Config, s: State)
    requires Accepted(cfg) && CleanReachable(cfg, s) && cfg.serverErr.failure == SendFailure
    ensures s.sc == [] && (s.s.pc.Done? ==> cfg.clientErr.failure == RecvFailure)
  {
    CleanReachableInv(cfg, s);
    hide CleanReachable, Inv, CleanInv;
    NothingSent(cfg, s);
  }

  lemma NothingSent(cfg: Config, s: State)
    requires Inv(cfg, s) && CleanInv(cfg, s) && cfg.serverErr.failure == SendFailure
    ensures s.sc == [] && (s.s.pc.Done? ==> cfg.clientErr.failure == RecvFailure)
  {
    Locs();
    hide Loc, StreamsOk, CleanStream, ClientOk, ServerOk, OutOk;
  }

  /** It ends at all if and only if the client is in the receive failure mode. */
  lemma SendModeEnds(cfg: Config)
    requires Accepted(cfg) && cfg.serverErr.failure == SendFailure
    ensures (exists s :: CleanReachable(cfg, s) && s.s.pc.Done?) <==> cfg.clientErr.failure == RecvFailure
  {
    hide CleanReachable;
    forall s | CleanReachable(cfg, s) && s.s.pc.Done?
      ensures cfg.clientErr.failure == RecvFailure
    {
      SendModeKills(cfg, s);
    }
    if cfg.clientErr.failure == RecvFailure {
      var s := Leak.EndsWithout(cfg);
    }
  }
}
