/** What the role functions, barrier and main return, on every path and under every failure. These are facts
    about one process alone, so they are kept by its steps whatever it is handed. */
module Returns {
  import opened Wire
  import opened Roles
  import opened Machine
  import opened Safety
  import Runtime
  import Link

  // -------------------------------------------------------------------------------------------
  // The role functions
  // -------------------------------------------------------------------------------------------

  /** runServer: without an endpoint 0 exactly if its creation failed under a failure mode; with one -1 if
      the message could not be built, or its send failed under a failure mode, and else 0. */
  predicate ServerReturns(emulated: bool, made: bool, copied: bool, built: bool, sent: Option<bool>, v: int) {
    if !made then v == if copied && emulated then 0 else -1
    else (built ==> sent.Some?) && v == if !built || (sent == Some(false) && emulated) then -1 else 0
  }

  /** runUcxClient: 0 exactly if the string was copied, inside the message or past it. */
  predicate ClientReturns(copied: bool, v: int) {
    v == if copied then 0 else -1
  }

  predicate RoleReturns(cfg: Config, r: Role, p: Proc, v: int) {
    if r.Client? then ClientReturns(p.copied.Some? || p.overread, v)
    else ServerReturns(cfg.serverErr.failure != NoFailure, p.ep != NoEp, p.addrCopied, p.output.Some?, p.sent, v)
  }

  /** What the server has done by each location. */
  predicate ServerSoFar(cfg: Config, p: Proc) {
    match p.pc
    case SSendLen | SSendAddr | SProbe | SAllocIn | SPostRecv | SWaitRecv | SAllocPeer =>
      p.ep == NoEp && !p.addrCopied && p.output == None && p.sent == None && p.roleRet == None
    case SCreateEp => p.ep == NoEp && p.addrCopied && p.output == None && p.sent == None && p.roleRet == None
    case SAllocOut | SGenAlloc => p.ep.Open? && p.output == None && p.sent == None && p.roleRet == None
    case SPreProgress | SPostSend | SWaitSend => p.ep.Open? && p.output.Some? && p.sent == None && p.roleRet == None
    case SSpinFailed =>
      && p.ep.Open? && p.output.Some? && p.sent == Some(false) && p.roleRet == None && p.ret == 0
      && cfg.serverErr.failure == NoFailure
    case SSpinKeepalive | SPostFlush | SWaitFlush =>
      p.ep.Open? && p.output.Some? && p.sent == Some(true) && p.roleRet == None
    case PostClose | WaitClose =>
      (if p.pc.PostClose? then p.ep.Open? else p.ep.Closed?) && p.roleRet == None && RoleReturns(cfg, Server, p, p.ret)
    case Killed => p.roleRet == None
    case _ => InCommon(p.pc) && (p.roleRet.Some? ==> RoleReturns(cfg, Server, p, p.roleRet.value))
  }

  predicate ClientSoFar(cfg: Config, p: Proc) {
    match p.pc
    case CRecvLen | CAllocPeer | CRecvAddr | CCreateEp =>
      p.copied == None && !p.overread && p.roleRet == None
    case CAllocOut | CPostSend | CWaitSend | CProbe | CAllocIn | CPostRecv | CWaitRecv | CAllocStr =>
      p.ep.Open? && p.copied == None && !p.overread && p.roleRet == None && p.ret == -1
    case PostClose | WaitClose =>
      (if p.pc.PostClose? then p.ep.Open? else p.ep.Closed?) && p.roleRet == None && RoleReturns(cfg, Client, p, p.ret)
    case Killed => p.roleRet == None
    case _ => InCommon(p.pc) && (p.roleRet.Some? ==> RoleReturns(cfg, Client, p, p.roleRet.value))
  }

  /** The barrier runs exactly after a role that returned 0 without failure emulation, and then its result is
      main's: 0 or 1, or what a failed send returned. */
  predicate MainSoFar(cfg: Config, r: Role, p: Proc) {
    match p.pc
    case BarrierSend | BarrierPoll | BarrierRecv =>
      p.roleRet == Some(0) && cfg.Failure(r) == NoFailure && p.barrier == None
    case CloseSock => p.roleRet.Some? && MainReturns(cfg, r, p)
    case ReleaseAddr | DestroyWorker | CleanupCtx | Done => p.roleRet.Some? ==> MainReturns(cfg, r, p)
    case _ => p.barrier == None
  }

  predicate MainReturns(cfg: Config, r: Role, p: Proc)
    requires p.roleRet.Some?
  {
    && (p.barrier.Some? <==> p.roleRet == Some(0) && cfg.Failure(r) == NoFailure)
    && (p.barrier.Some? ==> p.barrier.value <= 1)
    && p.ret == if p.barrier.Some? then p.barrier.value else p.roleRet.value
  }

  predicate RoleSoFar(cfg: Config, r: Role, p: Proc) {
    if r.Client? then ClientSoFar(cfg, p) else ServerSoFar(cfg, p)
  }

  predicate SoFar(cfg: Config, r: Role, p: Proc) {
    RoleSoFar(cfg, r, p) && MainSoFar(cfg, r, p)
  }

  lemma ServerKeeps(cfg: Config, p: Proc, o: Obs)
    requires SoFar(cfg, Server, p) && !InCommon(p.pc)
    ensures SoFar(cfg, Server, ServerStep(cfg, p, o))
  {
    hide ServerStep, SoFar, InCommon;
    if p.pc in {SSendLen, SSendAddr, SProbe, SAllocIn, SPostRecv, SWaitRecv, SAllocPeer, SCreateEp} {
      EarlyServerKeeps(cfg, p, o);
    } else if p.pc in {SAllocOut, SGenAlloc} {
      BuildKeeps(cfg, p, o);
    } else if p.pc in {SPreProgress, SPostSend} {
      SendKeeps(cfg, p, o);
    } else if p.pc.SWaitSend? {
      WaitSendKeeps(cfg, p, o);
    } else {
      ServerAt(cfg, p);
      FlushKeeps(cfg, p, o);
    }
  }

  lemma ServerAt(cfg: Config, p: Proc)
    requires SoFar(cfg, Server, p) && !InCommon(p.pc)
    ensures p.pc in {SSendLen, SSendAddr, SProbe, SAllocIn, SPostRecv, SWaitRecv, SAllocPeer, SCreateEp,
                     SAllocOut, SGenAlloc, SPreProgress, SPostSend, SWaitSend,
                     SSpinFailed, SSpinKeepalive, SPostFlush, SWaitFlush}
  {
  }

  lemma EarlyServerKeeps(cfg: Config, p: Proc, o: Obs)
    requires SoFar(cfg, Server, p)
    requires p.pc in {SSendLen, SSendAddr, SProbe, SAllocIn, SPostRecv, SWaitRecv, SAllocPeer, SCreateEp}
    ensures SoFar(cfg, Server, ServerStep(cfg, p, o))
  {
    hide CommonStep, Printf, ServerPayload, Frame, Zeros, Value, Bytes, CopyPayload, CopyInBounds, LengthCheck;
  }

  lemma BuildKeeps(cfg: Config, p: Proc, o: Obs)
    requires SoFar(cfg, Server, p) && p.pc in {SAllocOut, SGenAlloc}
    ensures SoFar(cfg, Server, ServerStep(cfg, p, o))
  {
    hide CommonStep, Printf, ServerPayload, Frame, Zeros, Value, Bytes, CopyPayload, CopyInBounds, LengthCheck;
  }

  lemma SendKeeps(cfg: Config, p: Proc, o: Obs)
    requires SoFar(cfg, Server, p) && p.pc in {SPreProgress, SPostSend}
    ensures SoFar(cfg, Server, ServerStep(cfg, p, o))
  {
    hide CommonStep, Printf, ServerPayload, Frame, Zeros, Value, Bytes, CopyPayload, CopyInBounds, LengthCheck;
  }

  lemma WaitSendKeeps(cfg: Config, p: Proc, o: Obs)
    requires SoFar(cfg, Server, p) && p.pc.SWaitSend?
    ensures SoFar(cfg, Server, ServerStep(cfg, p, o))
  {
    hide CommonStep, Printf, ServerPayload, Frame, Zeros, Value, Bytes, CopyPayload, CopyInBounds, LengthCheck;
  }

  lemma FlushKeeps(cfg: Config, p: Proc, o: Obs)
    requires SoFar(cfg, Server, p) && p.pc in {SSpinFailed, SSpinKeepalive, SPostFlush, SWaitFlush}
    ensures SoFar(cfg, Server, ServerStep(cfg, p, o))
  {
    hide CommonStep, Printf, ServerPayload, Frame, Zeros, Value, Bytes, CopyPayload, CopyInBounds, LengthCheck;
  }

  lemma ClientKeeps(cfg: Config, p: Proc, o: Obs)
    requires SoFar(cfg, Client, p) && !InCommon(p.pc)
    ensures SoFar(cfg, Client, ClientStep(cfg, p, o))
  {
    hide ClientStep, SoFar, InCommon;
    if p.pc in {CRecvLen, CAllocPeer, CRecvAddr, CCreateEp, CAllocOut, CPostSend, CWaitSend} {
      EarlyClientKeeps(cfg, p, o);
    } else {
      LateClientKeeps(cfg, p, o);
    }
  }

  lemma EarlyClientKeeps(cfg: Config, p: Proc, o: Obs)
    requires SoFar(cfg, Client, p)
    requires p.pc in {CRecvLen, CAllocPeer, CRecvAddr, CCreateEp, CAllocOut, CPostSend, CWaitSend}
    ensures SoFar(cfg, Client, ClientStep(cfg, p, o))
  {
    hide CommonStep, Printf, ServerPayload, Frame, Zeros, Value, Bytes, CopyPayload, CopyInBounds, LengthCheck;
  }

  lemma LateClientKeeps(cfg: Config, p: Proc, o: Obs)
    requires SoFar(cfg, Client, p) && !InCommon(p.pc)
    requires p.pc !in {CRecvLen, CAllocPeer, CRecvAddr, CCreateEp, CAllocOut, CPostSend, CWaitSend}
    ensures SoFar(cfg, Client, ClientStep(cfg, p, o))
  {
    hide CommonStep, Printf, ServerPayload, Frame, Zeros, Value, Bytes, CopyPayload, CopyInBounds, LengthCheck;
  }

  lemma CloseKeeps(cfg: Config, r: Role, p: Proc, o: Obs)
    requires RoleSoFar(cfg, r, p) && (p.pc.PostClose? || p.pc.WaitClose?)
    ensures RoleSoFar(cfg, r, CommonStep(cfg, r, p, o))
  {
    hide CloseFlags, ServerReturns, ClientReturns;
  }

  /** After the role function has returned. */
  predicate IsLate(pc: Pc) {
    pc in {BarrierSend, BarrierPoll, BarrierRecv, CloseSock, ReleaseAddr, DestroyWorker, CleanupCtx, Done}
  }

  lemma LateSoFar(cfg: Config, r: Role, p: Proc)
    requires IsLate(p.pc)
    ensures RoleSoFar(cfg, r, p) <==> (p.roleRet.Some? ==> RoleReturns(cfg, r, p, p.roleRet.value))
  {
    hide RoleReturns;
  }

  lemma LateKeeps(cfg: Config, r: Role, p: Proc, o: Obs)
    requires RoleSoFar(cfg, r, p) && IsLate(p.pc)
    ensures RoleSoFar(cfg, r, CommonStep(cfg, r, p, o))
  {
    hide ServerReturns, ClientReturns, RoleSoFar;
    LateSoFar(cfg, r, p);
    LateSoFar(cfg, r, CommonStep(cfg, r, p, o));
  }

  lemma MainKeeps(cfg: Config, r: Role, p: Proc, o: Obs)
    requires MainSoFar(cfg, r, p) && InCommon(p.pc)
    ensures MainSoFar(cfg, r, CommonStep(cfg, r, p, o))
  {
    hide CloseFlags;
  }

  lemma KilledKeeps(cfg: Config, r: Role, p: Proc, o: Obs)
    requires p.pc.Killed?
    ensures CommonStep(cfg, r, p, o) == p
  {
  }

  lemma CommonKeeps(cfg: Config, r: Role, p: Proc, o: Obs)
    requires SoFar(cfg, r, p) && InCommon(p.pc)
    ensures SoFar(cfg, r, CommonStep(cfg, r, p, o))
  {
    hide RoleSoFar, MainSoFar, CommonStep;
    MainKeeps(cfg, r, p, o);
    if p.pc.PostClose? || p.pc.WaitClose? { CloseKeeps(cfg, r, p, o); }
    else if p.pc.Killed? { KilledKeeps(cfg, r, p, o); }
    else { LateKeeps(cfg, r, p, o); }
  }

  lemma {:induction false} FoldSoFar(cfg: Config, r: Role, obs: seq<Obs>)
    ensures SoFar(cfg, r, Runtime.Fold(cfg, r, Start(r), obs))
    decreases |obs|
  {
    if obs != [] {
      hide ServerStep, ClientStep, CommonStep, ClientSoFar, ServerSoFar, MainSoFar, InCommon;
      var front, o := obs[..|obs| - 1], obs[|obs| - 1];
      FoldSoFar(cfg, r, front);
      var p := Runtime.Fold(cfg, r, Start(r), front);
      if InCommon(p.pc) {
        CommonIsLocal(cfg, r, p, o);
        CommonKeeps(cfg, r, p, o);
      } else if r.Client? {
        ClientKeeps(cfg, p, o);
      } else {
        ServerKeeps(cfg, p, o);
      }
    }
  }

  lemma ReachableSoFar(cfg: Config, s: State, r: Role)
    requires cfg.Valid() && Reachable(cfg, s)
    ensures SoFar(cfg, r, s.P(r))
  {
    hide Runtime.Fold, SoFar, Reachable, Link.Answered;
    var obs := Link.CodeReaches(cfg, s, r);
    FoldSoFar(cfg, r, obs);
  }

  /** What runServer returned, exactly: without an endpoint 0 if its creation failed under a failure mode and
      -1 on the failures before; with one -1 if the message was not built, or its send failed under a failure
      mode, and 0 otherwise. */
  lemma ServerReturnsExactly(cfg: Config, s: State)
    requires cfg.Valid() && Reachable(cfg, s) && s.s.roleRet.Some?
    ensures var p, emulated := s.s, cfg.serverErr.failure != NoFailure;
            && (p.ep == NoEp ==> p.roleRet == Some(if p.addrCopied && emulated then 0 else -1))
            && (p.ep != NoEp && p.output == None ==> p.roleRet == Some(-1))
            && (p.ep != NoEp && p.output.Some? ==>
                  p.sent.Some? && p.roleRet == Some(if !p.sent.value && emulated then -1 else 0))
  {
    hide Reachable;
    ReachableSoFar(cfg, s, Server);
  }

  /** What runUcxClient returned, exactly: 0 if it copied the string and -1 otherwise. */
  lemma ClientReturnsExactly(cfg: Config, s: State)
    requires cfg.Valid() && Reachable(cfg, s) && s.c.roleRet.Some?
    ensures s.c.roleRet == Some(if s.c.copied.Some? || s.c.overread then 0 else -1)
  {
    hide Reachable;
    ReachableSoFar(cfg, s, Client);
  }

  /** What main returns once the role function was entered: barrier's result if the role returned 0 without
      failure emulation, and the role's result otherwise. */
  lemma MainReturnsExactly(cfg: Config, s: State, r: Role)
    requires cfg.Valid() && Reachable(cfg, s) && s.P(r).pc.Done? && s.P(r).roleRet.Some?
    ensures var p := s.P(r);
            if p.roleRet == Some(0) && cfg.Failure(r) == NoFailure then p.barrier == Some(p.ret)
            else p.barrier == None && p.roleRet == Some(p.ret)
  {
    hide Reachable;
    ReachableSoFar(cfg, s, r);
  }

  // -------------------------------------------------------------------------------------------
  // Single calls
  // -------------------------------------------------------------------------------------------

  /** The three kills of -e: the client's after its own message was sent (recv) or when the server's message
      is there (keepalive), and the server's when the address message was received (send). */
  predicate KillsNow(failure: FailureMode, r: Role, pc: Pc, o: Obs) {
    match failure
    case NoFailure => false
    case RecvFailure =>
      r.Client? && ((pc.CPostSend? && o == Post(Now)) || (pc.CWaitSend? && o == Progress(SendDone(true))))
    case KeepaliveFailure => r.Client? && pc.CProbe? && o.Probed?
    case SendFailure => r.Server? && pc.SWaitRecv? && o.Progress? && o.seen.RecvDone? && o.seen.received
  }

  lemma KilledExactly(cfg: Config, r: Role, p: Proc, o: Obs)
    requires !p.pc.Killed?
    ensures LocalStep(cfg, r, p, o).pc.Killed? <==> KillsNow(cfg.Failure(r), r, p.pc, o)
  {
    hide CommonStep, KillsNow;
    CommonLives(cfg, r, p, o);
    if r.Client? { ClientKilled(cfg, p, o); } else { ServerKilled(cfg, p, o); }
  }

  lemma CommonLives(cfg: Config, r: Role, p: Proc, o: Obs)
    requires !p.pc.Killed?
    ensures !CommonStep(cfg, r, p, o).pc.Killed?
  {
  }

  lemma ClientKilled(cfg: Config, p: Proc, o: Obs)
    requires !p.pc.Killed?
    ensures ClientStep(cfg, p, o).pc.Killed? <==> KillsNow(cfg.clientErr.failure, Client, p.pc, o)
  {
    CommonLives(cfg, Client, p, o);
    hide CommonStep, PrintString, Frame, Zeros, Value, Bytes, LengthCheck, FreeOut, FreeIn, Fill;
  }

  lemma ServerKilled(cfg: Config, p: Proc, o: Obs)
    requires !p.pc.Killed?
    ensures ServerStep(cfg, p, o).pc.Killed? <==> KillsNow(cfg.serverErr.failure, Server, p.pc, o)
  {
    CommonLives(cfg, Server, p, o);
    hide CommonStep, Printf, ServerPayload, Frame, Zeros, Value, Bytes, LengthCheck, FreeOut, FreeIn, Fill;
  }

  /** The address exchange: what a transfer moved is cut to an int, becomes main's ret, and is compared with
      the length cut the same way; the client keeps that ret when it finds no memory. */
  lemma ExchangeReturns(cfg: Config, r: Role, p: Proc, o: Obs)
    requires p.pc in {CRecvLen, CRecvAddr, SSendLen, SSendAddr} && (if r.Client? then o.Recvd? else o.Sent?)
    requires r.Client? <==> p.pc.CRecvLen? || p.pc.CRecvAddr?
    ensures var q := LocalStep(cfg, r, p, o);
            var moved := if o.Sent? then o.n else if o.failed then -1 else |o.bytes|;
            var length := if p.pc.CRecvLen? || p.pc.SSendLen? then 8
                          else if r.Client? then p.seen else |cfg.serverAddr|;
            && q.ret == ToInt32(moved)
            && (q.pc.ReleaseAddr? <==> (moved - length) % 0x1_0000_0000 != 0)
            && (p.pc.CRecvLen? && !q.pc.ReleaseAddr? ==> q.seen == Value(o.bytes))
            && (p.pc.CRecvAddr? && !q.pc.ReleaseAddr? ==> q.heap.peerAddr == Some(Block(HostMalloc, o.bytes)))
  {
    var moved := if o.Sent? then o.n else if o.failed then -1 else |o.bytes|;
    var length := if p.pc.CRecvLen? || p.pc.SSendLen? then 8 else if r.Client? then p.seen else |cfg.serverAddr|;
    hide CommonStep, LengthCheck, Value, ToInt32;
    LengthCheckIs(moved, length);
    var congruent := (moved - length) % 0x1_0000_0000 == 0;
    assert LengthCheck(moved, length) <==> congruent;
  }

  /** barrier: a failed send's own value at once; else 0 if exactly four bytes came in, and 1 if not. */
  lemma BarrierReturns(cfg: Config, r: Role, p: Proc, o: Obs)
    requires (p.pc.BarrierSend? && o.Sent?) || (p.pc.BarrierRecv? && o.Recvd?)
    ensures var q := LocalStep(cfg, r, p, o);
            && (o.Sent? && o.n >= 0 ==> q == p.(pc := BarrierPoll))
            && (o.Sent? && o.n < 0 ==> q == p.(ret := o.n, barrier := Some(o.n), pc := CloseSock))
            && (o.Recvd? ==>
                  var b := if !o.failed && |o.bytes| == 4 then 0 else 1;
                  q == p.(ret := b, barrier := Some(b), pc := CloseSock))
  {
  }

  // -------------------------------------------------------------------------------------------
  // The order of the calls
  // -------------------------------------------------------------------------------------------

  /** The result lets the code go on: the transfer is whole, the memory granted, the operation accepted, and
      at a wait ended well. */
  predicate Passes(cfg: Config, p: Proc, o: Obs) {
    && Runtime.CallAt(p.pc).Answers(o)
    && match o
       case Recvd(bytes, failed) =>
         !failed && (p.pc.CRecvLen? ==> |bytes| == 8) && (p.pc.CRecvAddr? ==> |bytes| == p.seen)
       case Sent(n) => n >= 0 && (p.pc.SSendLen? ==> n == 8) && (p.pc.SSendAddr? ==> n == |cfg.serverAddr|)
       case Alloc(granted) => granted
       case Created(made) => made
       case Post(posted) => posted == Later
       case Progress(seen) =>
         if p.pc in {CWaitSend, SWaitSend} then seen == SendDone(true)
         else if p.pc in {CWaitRecv, SWaitRecv} then seen.RecvDone? && seen.received
         else if p.pc in {SWaitFlush, WaitClose} then seen.OpDone?
         else p.pc.SPreProgress?
       case _ => true
  }

  /** Without failure emulation no call is left out: each result that lets the code go on leads to the very
      next call in program order, but for the two spins of the server, and the close that follows the
      client's string. */
  lemma NoneSkipped(cfg: Config, r: Role, p: Proc, o: Obs)
    requires cfg.Failure(r) == NoFailure && ToInt32(cfg.serverLen) >= 0 && SoFar(cfg, r, p) && Passes(cfg, p, o)
    requires p.epOk && (p.pc.WaitClose? ==> p.ret == 0)
    ensures Loc(LocalStep(cfg, r, p, o).pc) ==
            if p.pc.SWaitSend? then S_POST_FLUSH else if p.pc.CAllocStr? then POST_CLOSE else Loc(p.pc) + 1
  {
    Locs();
    hide Loc, CommonStep, ClientStep, ServerStep;
    if InCommon(p.pc) {
      CommonIsLocal(cfg, r, p, o);
      CommonNext(cfg, r, p, o);
    } else if r.Client? {
      ClientNext(cfg, p, o);
    } else {
      ServerAt(cfg, p);
      ServerNext(cfg, p, o);
    }
  }

  lemma CommonNext(cfg: Config, r: Role, p: Proc, o: Obs)
    requires cfg.Failure(r) == NoFailure && SoFar(cfg, r, p) && InCommon(p.pc) && Passes(cfg, p, o)
    requires p.pc.WaitClose? ==> p.ret == 0
    ensures Loc(CommonStep(cfg, r, p, o).pc) == Loc(p.pc) + 1
  {
    Locs();
    hide Loc, RoleReturns;
  }

  lemma ClientNext(cfg: Config, p: Proc, o: Obs)
    requires cfg.clientErr.failure == NoFailure && ClientSoFar(cfg, p) && !InCommon(p.pc) && Passes(cfg, p, o) && p.epOk
    ensures Loc(ClientStep(cfg, p, o).pc) == if p.pc.CAllocStr? then POST_CLOSE else Loc(p.pc) + 1
  {
    Locs();
    hide Loc, CommonStep, Printf, Frame, Zeros, Value, Bytes, CopyPayload, ToInt32, RoleReturns;
  }

  lemma ServerNext(cfg: Config, p: Proc, o: Obs)
    requires cfg.serverErr.failure == NoFailure && ToInt32(cfg.serverLen) >= 0 && ServerSoFar(cfg, p)
    requires !InCommon(p.pc) && Passes(cfg, p, o) && p.epOk
    ensures Loc(ServerStep(cfg, p, o).pc) == if p.pc.SWaitSend? then S_POST_FLUSH else Loc(p.pc) + 1
  {
    Locs();
    hide Loc, CommonStep, Printf, ServerPayload, Frame, Zeros, Value, Bytes, CopyPayload, CopyInBounds, RoleReturns;
  }
}
