/** What every run guarantees, whatever the environment does: any failures, any interleaving. */
module Guarantees {
  import opened Wire
  import opened Roles
  import opened Machine
  import opened Safety
  import opened Measure
  import Clean

  /** Addresses cross unchanged: an endpoint is only ever created to the peer's own address. */
  lemma AddressesMatch(cfg: Config, s: State)
    requires cfg.Valid() && Reachable(cfg, s)
    ensures (s.s.ep != NoEp ==> s.s.ep.addr == cfg.clientAddr)
            && (s.c.ep != NoEp ==> s.c.ep.addr == cfg.serverAddr)
  {
    ReachableInv(cfg, s);
    hide Next, OutOk, StreamsOk;
  }

  /** Whenever the client's role function returned 0, it copied the first clientLen bytes of the server's
      payload and gave just these to printf, or its copy ran past the message: exactly when it asked for
      more than was sent. */
  lemma StringDelivered(cfg: Config, s: State)
    requires cfg.Valid() && Reachable(cfg, s) && s.c.roleRet == Some(0)
    ensures var c := s.c;
            && ToInt32(cfg.serverLen) >= 0
            && (c.overread <==> cfg.clientLen > cfg.serverLen)
            && (!c.overread ==>
                  && c.copied == Some(ServerPayload(cfg.serverLen)[..cfg.clientLen])
                  && c.output == Some(Printf(ServerPayload(cfg.serverLen)[..cfg.clientLen])))
  {
    ReachableInv(cfg, s);
    hide Next, OutOk, StreamsOk, Printf;
  }

  /** The client's printf stays inside its string exactly when the copied bytes include the text's NUL: not
      for an empty string, nor for one shorter than the text. It runs in every successful role function
      whose copy stayed inside the message. */
  lemma PrintStaysInside(cfg: Config, s: State)
    requires cfg.Valid() && Reachable(cfg, s)
    ensures s.c.roleRet == Some(0) && cfg.clientLen <= cfg.serverLen ==> s.c.output.Some?
    ensures s.c.output.Some? ==>
              && ToInt32(cfg.serverLen) >= 0 && cfg.clientLen <= cfg.serverLen
              && (s.c.output == Some(PastEnd) <==> cfg.clientLen == 0 || cfg.clientLen < ToInt32(cfg.serverLen))
  {
    ReachableInv(cfg, s);
    hide Reachable, Printf, Inv;
    ClientPrinted(cfg, s);
    if s.c.output.Some? {
      PrintPayload(cfg.serverLen, cfg.clientLen);
    }
  }

  lemma ClientPrinted(cfg: Config, s: State)
    requires Inv(cfg, s)
    ensures s.c.roleRet == Some(0) || s.c.output.Some? ==> Delivered(cfg, s.c)
  {
    Locs();
    hide Loc, OutOk, StreamsOk, ServerOk, Printf;
  }

  /** With the same -s on both sides a successful client copied the promised string exactly for the lengths
      that fit an int, and printed the promised letters exactly for those from 1 on. */
  lemma TextDeliveredExactly(cfg: Config, s: State)
    requires cfg.Valid() && Reachable(cfg, s) && s.c.roleRet == Some(0) && cfg.clientLen == cfg.serverLen
    ensures s.c.copied == Some(TestString(cfg.serverLen)) <==> cfg.serverLen < TWO_31
    ensures s.c.output == Some(Text(Letters(if cfg.serverLen == 0 then 0 else cfg.serverLen - 1))) <==>
              1 <= cfg.serverLen < TWO_31
  {
    StringDelivered(cfg, s);
    ServerPayloadExact(cfg.serverLen);
    PrintPayloadExact(cfg.serverLen);
    hide Reachable, Printf;
    assert ServerPayload(cfg.serverLen)[..cfg.clientLen] == ServerPayload(cfg.serverLen);
  }

  /** The server's own printf of its payload has run before it posts its message, and stays inside the
      message exactly when the payload is not empty. */
  lemma ServerPrints(cfg: Config, s: State)
    requires cfg.Valid() && Reachable(cfg, s)
    ensures S_PRE_PROGRESS <= Loc(s.s.pc) <= S_WAIT_FLUSH ==> s.s.output.Some?
    ensures s.s.output.Some? ==> ToInt32(cfg.serverLen) >= 0 && s.s.output == Some(Printf(ServerPayload(cfg.serverLen)))
    ensures s.s.output == Some(PastEnd) ==> cfg.serverLen == 0
    ensures s.s.output.Some? && cfg.serverLen == 0 ==> s.s.output == Some(PastEnd)
  {
    hide Next, OutOk, StreamsOk, Printf, ClientOk, Loc, Reachable, ResourcesOk, Progressed;
    ReachableInv(cfg, s);
    if s.s.output.Some? {
      PrintPayload(cfg.serverLen, cfg.serverLen);
      assert ServerPayload(cfg.serverLen)[..cfg.serverLen] == ServerPayload(cfg.serverLen);
    }
  }

  /** No buffer leaves its owner while an operation on it is pending, so no rendezvous read or
      delivery ever meets a missing block, and a pending send's buffer still holds the whole message. */
  lemma BuffersStable(cfg: Config, s: State, r: Role)
    requires cfg.Valid() && Reachable(cfg, s)
    ensures !s.dangling
            && (Waiting(s.P(r)) ==> s.P(r).heap.outMsg.Some? && s.P(r).heap.outMsg.value.data == FrameOf(cfg, r))
            && (s.P(r).pc in {CWaitRecv, SWaitRecv} ==>
                  s.P(r).heap.inMsg.Some? && |s.P(r).heap.inMsg.value.data| == |FrameOf(cfg, r.Peer())|)
  {
    ReachableInv(cfg, s);
    SendBuffer(cfg, s, r);
    if s.P(r).pc in {CWaitRecv, SWaitRecv} {
      ReceiveBuffer(cfg, s, r);
    }
    hide Next, ProcOk, ClientOk, ServerOk, OutOk, StreamsOk;
  }

  lemma SendBuffer(cfg: Config, s: State, r: Role)
    requires Inv(cfg, s)
    ensures Waiting(s.P(r)) ==> s.P(r).heap.outMsg.Some? && s.P(r).heap.outMsg.value.data == FrameOf(cfg, r)
  {
    hide OutOk, StreamsOk, Loc;
  }

  lemma ReceiveBuffer(cfg: Config, s: State, r: Role)
    requires Inv(cfg, s) && s.P(r).pc in {CWaitRecv, SWaitRecv}
    ensures s.P(r).heap.inMsg.Some? && |s.P(r).heap.inMsg.value.data| == |FrameOf(cfg, r.Peer())|
  {
    Locs();
    RoleOf(cfg, s, r);
    hide StreamsOk, Loc, OutOk;
    ReceivingTransfer(cfg, s, r);
  }

  predicate Unmatched(t: Transfer) {
    t.stage.OnWire? || t.stage.Unexpected?
  }

  /** Both directions use one tag, yet a worker never holds two unmatched messages: a successful probe
      returns the one message its phase expects, eight bytes longer than the address or the text. */
  lemma UniqueMatch(cfg: Config, s: State, r: Role)
    requires cfg.Valid() && Reachable(cfg, s)
    ensures var inc := s.Out(r.Peer());
            && (forall i, j :: 0 <= i < |inc| && 0 <= j < |inc| && Unmatched(inc[i]) && Unmatched(inc[j]) ==> i == j)
            && (forall i :: 0 <= i < |inc| ==> inc[i].tag == 0x1337a880)
            && (Probeable(inc) ==>
                  var len := inc[Find(inc, Unexpected)].len;
                  if r.Client? then ToInt32(cfg.serverLen) >= 0 && len == 8 + cfg.serverLen
                  else len == 8 + |cfg.clientAddr|)
  {
    ReachableInv(cfg, s);
    FrameLengths(cfg);
    hide Next, ProcOk, ClientOk, ServerOk, StreamsOk, Loc, FrameOf;
  }

  /** The sizes of the two messages on the wire: a 64-bit length and what it counts. */
  lemma FrameLengths(cfg: Config)
    ensures |FrameOf(cfg, Client)| == 8 + |cfg.clientAddr|
    ensures if ToInt32(cfg.serverLen) >= 0 then |FrameOf(cfg, Server)| == 8 + cfg.serverLen
            else FrameOf(cfg, Server) == []
  {
  }

  /** If barrier returned 0 on one side, the other side's role function had returned 0 and its whole
      token was written; and a side past its own barrier was past that point before it tears down. */
  lemma BarrierRendezvous(cfg: Config, s: State, r: Role)
    requires cfg.Valid() && Reachable(cfg, s) && s.P(r).barrier == Some(0)
    ensures var x := s.P(r.Peer());
            && s.P(r).roleRet == Some(0) && x.roleRet == Some(0)
            && Loc(x.pc) > BARRIER_SEND
            && (if r.Client? then |s.oobSC.sent| == 8 + |cfg.serverAddr| + 4 else s.oobCS.sent == [0, 0, 0, 0])
  {
    ReachableInv(cfg, s);
    Locs();
    hide Loc, Next, OutOk;
  }

  /** The server's stream: eight bytes that hold the length of its address, the address, and after a role
      that returned 0 the token of four zeros; always a prefix of that. Until its barrier receive the client
      has taken at most the length and the address, and exactly those once both checks passed. */
  lemma StreamDiscipline(cfg: Config, s: State)
    requires cfg.Valid() && Reachable(cfg, s)
    ensures var sent := s.oobSC.sent;
            && (|sent| >= 8 ==> Value(sent[..8]) == |cfg.serverAddr| && sent[8..] <= cfg.serverAddr + [0, 0, 0, 0])
            && |sent| <= 8 + |cfg.serverAddr| + 4
            && s.oobCS.sent <= [0, 0, 0, 0]
    ensures Loc(s.c.pc) < C_CREATE_EP ==> s.oobSC.taken <= 8
    ensures C_CREATE_EP <= Loc(s.c.pc) < CLOSE_SOCK ==> s.oobSC.taken == 8 + |cfg.serverAddr|
    ensures Loc(s.s.pc) <= BARRIER_RECV ==> s.oobCS.taken == 0
  {
    ReachableInv(cfg, s);
    Locs();
    hide Loc, Next, OutOk, ClientOk, ServerOk, Bytes, Value;
    PreambleReads(cfg, s.oobSC.sent);
  }

  lemma PreambleReads(cfg: Config, sent: seq<byte>)
    requires cfg.Valid() && sent <= Preamble(cfg) + TOKEN
    ensures |Preamble(cfg)| == 8 + |cfg.serverAddr|
    ensures |sent| >= 8 ==> Value(sent[..8]) == |cfg.serverAddr| && sent[8..] <= cfg.serverAddr + [0, 0, 0, 0]
  {
    hide Bytes, Value, Power256;
    Power256Of8();
    BytesRoundTrip(|cfg.serverAddr|, 8);
    var whole := Preamble(cfg) + TOKEN;
    if |sent| >= 8 {
      assert sent[..8] == whole[..8] == Bytes(|cfg.serverAddr|, 8);
      assert whole[8..] == cfg.serverAddr + [0, 0, 0, 0];
      assert sent[8..] == whole[8..|sent|];
    }
  }

  /** When a role function has returned, its endpoint is closed if it was ever created, by force exactly
      under peer failure handling, and both message blocks are freed. */
  lemma RoleLedger(cfg: Config, s: State, r: Role)
    requires cfg.Valid() && Reachable(cfg, s) && s.P(r).roleRet.Some?
    ensures RoleClosed(cfg, r, s.P(r))
  {
    ReachableInv(cfg, s);
    hide Loc, Next, OutOk, StreamsOk, ClientOk, ServerOk, RoleClosed;
    if r.Client? { ClientClosed(cfg, s.c); } else { ServerClosed(cfg, s.s); }
  }

  predicate RoleClosed(cfg: Config, r: Role, p: Proc) {
    && (p.ep == NoEp || p.ep.Closed?)
    && (p.ep.Closed? ==> (p.ep.force <==> cfg.Err(r).mode == HandlePeer))
    && p.heap.outMsg == None && p.heap.inMsg == None
  }

  lemma ClientClosed(cfg: Config, p: Proc)
    requires ClientOk(cfg, p) && p.roleRet.Some?
    ensures RoleClosed(cfg, Client, p)
  {
    Locs();
    hide Loc;
  }

  lemma ServerClosed(cfg: Config, p: Proc)
    requires ServerOk(cfg, p) && p.roleRet.Some?
    ensures RoleClosed(cfg, Server, p)
  {
    Locs();
    hide Loc;
  }

  /** At its end the client's process owns no block. The server's owns nothing if and only if it never
      copied the client's address; otherwise it owns just that copy, which it never frees, whether or not
      an endpoint came of it. */
  lemma ProcessLedger(cfg: Config, s: State)
    requires cfg.Valid() && Reachable(cfg, s)
    ensures s.c.pc.Done? ==> s.c.heap == EMPTY
    ensures s.s.pc.Done? ==> (s.s.heap == EMPTY <==> !s.s.addrCopied)
    ensures s.s.pc.Done? ==> (s.s.heap == PeerOnly(cfg.clientAddr) <==> s.s.addrCopied)
    ensures s.s.ep != NoEp ==> s.s.addrCopied
  {
    ReachableInv(cfg, s);
    hide Loc, Next, OutOk, StreamsOk, Reachable;
  }

  /** Teardown releases address, worker and context in that order, each only once acquired, and at the
      end holds none; the socket stays open exactly when the address exchange failed. No location
      that drives progress is reached without the worker. */
  lemma TeardownOrder(cfg: Config, s: State, r: Role)
    requires cfg.Valid() && Reachable(cfg, s)
    ensures var p := s.P(r);
            && (!p.res.address || p.pc.ReleaseAddr? || Loc(p.pc) < RELEASE_ADDR || p.pc.Killed?)
            && (!p.res.worker ==> !p.res.address) && (!p.res.context ==> !p.res.worker)
            && (InWaitLoop(p.pc) || p.pc.BarrierPoll? ==> p.res.worker && p.res.context)
            && (p.pc.Done? ==> p.res == Resources(false, false, false, p.roleRet == None))
  {
    hide Loc, Next, OutOk, StreamsOk, ProcOk, ClientOk, ServerOk;
    ReachableInv(cfg, s);
    Locs();
    TeardownOf(cfg, s, r);
  }

  lemma TeardownOf(cfg: Config, s: State, r: Role)
    requires Inv(cfg, s)
    ensures ResourcesOk(s.P(r)) && (s.P(r).pc.Done? || s.P(r).pc.Killed? || Loc(s.P(r).pc) <= CLEANUP_CTX)
  {
    Locs();
    hide Loc, OutOk, StreamsOk;
  }

  /** How many steps of a run changed anything. */
  function Changes(run: seq<State>): nat {
    if |run| <= 1 then 0 else Changes(run[..|run| - 1]) + if run[|run| - 1] != run[|run| - 2] then 1 else 0
  }

  /** The initial rank: 28 for each process, 7 for each message, and 3 for each byte of the streams. */
  lemma InitialRank(cfg: Config)
    ensures Rank(cfg, Init()) == 118 + 3 * |cfg.serverAddr|
  {
    Locs();
    hide Loc;
  }

  /** Bounded work: no run, failing or not, changes the state more often than the length of the server's
      address allows. */
  lemma {:induction false} BoundedWork(cfg: Config, run: seq<State>, acts: seq<Action>)
    requires cfg.Valid() && IsRun(cfg, run, acts)
    ensures Changes(run) + Rank(cfg, run[|acts|]) <= Rank(cfg, Init())
    ensures Changes(run) <= 118 + 3 * |cfg.serverAddr|
    decreases |acts|
  {
    hide Next, Inv, Rank;
    InitialRank(cfg);
    RunInv(cfg, run, acts, |acts|);
    RankNonNegative(cfg, run[|acts|]);
    if acts != [] {
      var last := |acts| - 1;
      var front, before := run[..last + 1], acts[..last];
      forall i {:trigger before[i]} | 0 <= i < |before|
        ensures front[i + 1] == Next(cfg, front[i], before[i])
      {
        assert acts[i] == before[i];
      }
      BoundedWork(cfg, front, before);
      RunInv(cfg, run, acts, last);
      NextRank(cfg, run[last], acts[last]);
    }
  }
}
