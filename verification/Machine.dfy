/** The two processes joined by two TCP byte streams and one tag channel in each direction.

    What is assumed of the environment, and nothing else:
    - streams are reliable and ordered, and deliver in pieces of any size;
    - a posted message is never lost: it waits on the wire until the receiver's progress takes it in;
    - a request completes only inside a progress call of the process that posted it;
    - a rendezvous buffer is read after the match, by the receiver's or the sender's progress;
    - a send with failed status does not read its buffer any more. */
module Machine {
  import opened Wire
  import opened Roles

  /** A TCP stream: all bytes written, how many have arrived, how many the reader has taken. */
  datatype Stream = Stream(sent: seq<byte>, arrived: nat, taken: nat) {
    predicate Valid() {
      taken <= arrived <= |sent|
    }

    function Avail(): int {
      arrived - taken
    }
  }

  datatype Kind = Eager | RndvGet | RndvPut

  datatype Stage = OnWire | Unexpected | Claimed | Matched | Received

  const TAG := 0x1337a880

  /** One tagged message. `data` is None while only the sender's buffer holds the bytes. */
  datatype Transfer = Transfer(tag: nat, kind: Kind, len: nat, data: Option<seq<byte>>, stage: Stage, aborted: bool)

  datatype State = State(c: Proc, s: Proc, cs: seq<Transfer>, sc: seq<Transfer>,
                         oobCS: Stream, oobSC: Stream, dangling: bool)
  {
    function P(r: Role): Proc {
      if r.Client? then c else s
    }

    function WithP(r: Role, p: Proc): State {
      if r.Client? then this.(c := p) else this.(s := p)
    }

    /** Messages sent by r. */
    function Out(r: Role): seq<Transfer> {
      if r.Client? then cs else sc
    }

    function WithOut(r: Role, ts: seq<Transfer>): State {
      if r.Client? then this.(cs := ts) else this.(sc := ts)
    }

    /** The stream r writes. */
    function Oob(r: Role): Stream {
      if r.Client? then oobCS else oobSC
    }

    function WithOob(r: Role, st: Stream): State {
      if r.Client? then this.(oobCS := st) else this.(oobSC := st)
    }
  }

  datatype Event = Idle | Arrive | MoveIn | MoveOut | HandlerRuns | Complete | Break

  /** How the environment answers the call at the process's location. */
  datatype Choice = Ok | Null | Fail | Request(kind: Kind) | Short(n: nat) | Ev(e: Event)

  datatype Action = Deliver(from: Role, n: nat) | Act(r: Role, ch: Choice)

  function Init(): State {
    State(Start(Client), Start(Server), [], [], Stream([], 0, 0), Stream([], 0, 0), false)
  }

  /** The worker of the process is destroyed, or the process was killed. */
  predicate Gone(p: Proc) {
    Loc(p.pc) >= CLEANUP_CTX
  }

  /** No more bytes will ever be written to the stream of this process. */
  predicate SockClosed(p: Proc) {
    !p.res.sock || p.pc.Done? || p.pc.Killed?
  }

  /** Index of the first message in the given stage, |ts| if there is none. */
  function Find(ts: seq<Transfer>, stage: Stage): (k: nat)
    ensures k <= |ts|
    ensures k < |ts| ==> ts[k].stage == stage
  {
    if ts == [] || ts[0].stage == stage then 0 else 1 + Find(ts[1..], stage)
  }

  /** ucp_tag_probe_nb looks only at messages that progress already took in, by tag and full mask. */
  predicate Probeable(ts: seq<Transfer>) {
    var k := Find(ts, Unexpected);
    k < |ts| && ts[k].tag == TAG
  }

  function SetStage(ts: seq<Transfer>, k: nat, stage: Stage): seq<Transfer>
    requires k < |ts|
  {
    ts[k := ts[k].(stage := stage)]
  }

  function Local(cfg: Config, s: State, r: Role, o: Obs): State {
    s.WithP(r, LocalStep(cfg, r, s.P(r), o))
  }

  // -------------------------------------------------------------------------------------------
  // Progress
  // -------------------------------------------------------------------------------------------

  predicate Waiting(p: Proc) {
    p.pc.CWaitSend? || p.pc.SWaitSend?
  }

  /** A rendezvous transfer from r is matched and unread, so its data may be moved. Nothing here asks
      whether the sender still holds the buffer. */
  predicate CanMove(s: State, from: Role, kind: Kind) {
    var ts := s.Out(from);
    var k := Find(ts, Matched);
    && k < |ts|
    && ts[k].kind == kind
    && ts[k].data.None?
    && !ts[k].aborted
  }

  /** Reads the sender's buffer on behalf of the receiver's. Either block missing is a fault. */
  function Move(s: State, from: Role): State
    requires Find(s.Out(from), Matched) < |s.Out(from)|
  {
    var ts := s.Out(from);
    var k := Find(ts, Matched);
    var src := s.P(from).heap.outMsg;
    var dst := s.P(from.Peer()).heap.inMsg;
    if src.None? || dst.None? then s.(dangling := true)
    else s.WithOut(from, ts[k := ts[k].(data := Some(src.value.data))])
  }

  /** Events of one progress pass that do not complete the operation being waited for. */
  function Background(s: State, r: Role, e: Event): State {
    var inc := s.Out(r.Peer());
    match e
    case Arrive =>
      var k := Find(inc, OnWire);
      if k < |inc| then s.WithOut(r.Peer(), SetStage(inc, k, Unexpected)) else s
    case MoveIn => if CanMove(s, r.Peer(), RndvGet) then Move(s, r.Peer()) else s
    case MoveOut => if CanMove(s, r, RndvPut) then Move(s, r) else s
    case _ => s
  }

  /** One progress pass of r: background work, or the failure handler of an open endpoint. */
  function Pass(cfg: Config, s: State, r: Role, e: Event): State {
    if e.HandlerRuns? then
      if s.P(r).ep.Open? && s.P(r).epOk then Local(cfg, s, r, Progress(PeerDown)) else s
    else Background(s, r, e)
  }

  /** The most recent message of r has been handed over, so its send may complete. */
  predicate SendCanComplete(s: State, r: Role) {
    var ts := s.Out(r);
    ts != [] && ts[|ts| - 1].data.Some?
  }

  function AbortLast(ts: seq<Transfer>): seq<Transfer> {
    if ts == [] then ts else ts[|ts| - 1 := ts[|ts| - 1].(aborted := true)]
  }

  /** Everything r sent has been taken in by the peer's worker: flush and graceful close may finish. */
  predicate Flushed(ts: seq<Transfer>) {
    forall k :: 0 <= k < |ts| ==> !ts[k].stage.OnWire? || ts[k].aborted
  }

  function WaitSendStep(cfg: Config, s: State, r: Role, e: Event): State {
    match e
    case Complete => if SendCanComplete(s, r) then Local(cfg, s, r, Progress(SendDone(true))) else s
    case Break => Local(cfg, s.WithOut(r, AbortLast(s.Out(r))), r, Progress(SendDone(false)))
    case _ => Pass(cfg, s, r, e)
  }

  function WaitRecvStep(cfg: Config, s: State, r: Role, e: Event): State {
    var inc := s.Out(r.Peer());
    var k := Find(inc, Matched);
    match e
    case Complete =>
      if k < |inc| && inc[k].data.Some? && s.P(r).heap.inMsg.None? then s.(dangling := true)
      else if k < |inc| && inc[k].data.Some? then
        Local(cfg, s.WithOut(r.Peer(), SetStage(inc, k, Received)), r,
              Progress(RecvDone(true, inc[k].data.value)))
      else s
    case Break =>
      if k < |inc| then
        Local(cfg, s.WithOut(r.Peer(), inc[k := inc[k].(stage := Received, aborted := true)]), r,
              Progress(RecvDone(false, [])))
      else s
    case _ => Pass(cfg, s, r, e)
  }

  function WaitOpStep(cfg: Config, s: State, r: Role, e: Event): State {
    match e
    case Complete =>
      if (s.P(r).ep.Closed? && s.P(r).ep.force) || Flushed(s.Out(r)) then
        Local(cfg, s, r, Progress(OpDone(true)))
      else s
    case Break => Local(cfg, s, r, Progress(OpDone(false)))
    case _ => Pass(cfg, s, r, e)
  }

  /** A successful probe removes the message from the queue and keeps its handle. */
  function ProbeHit(cfg: Config, s: State, r: Role): State
    requires Probeable(s.Out(r.Peer()))
  {
    var inc := s.Out(r.Peer());
    var k := Find(inc, Unexpected);
    Local(cfg, s.WithOut(r.Peer(), SetStage(inc, k, Claimed)), r, Probed(inc[k].len))
  }

  /** One iteration of the client's receive loop: probe, and only on a miss progress. */
  function ClientProbeStep(cfg: Config, s: State, e: Event): State {
    if Probeable(s.sc) then ProbeHit(cfg, s, Client) else Pass(cfg, s, Client, e)
  }

  /** One iteration of the server's receive loop: progress, then probe. */
  function ServerProbeStep(cfg: Config, s: State, e: Event): State {
    var t := Pass(cfg, s, Server, e);
    if Probeable(t.cs) then ProbeHit(cfg, t, Server) else t
  }

  // -------------------------------------------------------------------------------------------
  // Calls
  // -------------------------------------------------------------------------------------------

  function PostSendStep(cfg: Config, s: State, r: Role, ch: Choice): State {
    var msg := if s.P(r).heap.outMsg.Some? then s.P(r).heap.outMsg.value.data else [];
    match ch
    case Null =>
      Local(cfg, s.WithOut(r, s.Out(r) + [Transfer(TAG, Eager, |msg|, Some(msg), OnWire, false)]), r, Post(Now))
    case Request(kind) =>
      var data := if kind.Eager? then Some(msg) else None;
      Local(cfg, s.WithOut(r, s.Out(r) + [Transfer(TAG, kind, |msg|, data, OnWire, false)]), r, Post(Later))
    case Fail => Local(cfg, s, r, Post(Refused))
    case _ => s
  }

  /** The handle of the probed message is consumed whether or not the receive is accepted. */
  function PostRecvStep(cfg: Config, s: State, r: Role, ch: Choice): State {
    var inc := s.Out(r.Peer());
    var k := Find(inc, Claimed);
    match ch
    case Ok => if k < |inc| then Local(cfg, s.WithOut(r.Peer(), SetStage(inc, k, Matched)), r, Post(Later)) else s
    case Fail => Local(cfg, s, r, Post(Refused))
    case _ => s
  }

  function PostOpStep(cfg: Config, s: State, r: Role, ch: Choice): State {
    match ch
    case Ok => Local(cfg, s, r, Post(Later))
    case Null => if Flushed(s.Out(r)) || CloseFlags(cfg.Err(r)) then Local(cfg, s, r, Post(Now)) else s
    case Fail => Local(cfg, s, r, Post(Refused))
    case _ => s
  }

  /** Takes n arrived bytes from the peer's stream. */
  function TakeBytes(cfg: Config, s: State, r: Role, n: nat): State {
    var st := s.Oob(r.Peer());
    if st.Valid() && n <= st.Avail() then
      Local(cfg, s.WithOob(r.Peer(), st.(taken := st.taken + n)), r, Recvd(st.sent[st.taken..st.taken + n], false))
    else s
  }

  /** recv with MSG_WAITALL: the full count, or less on end of file, signal or error. */
  function OobRecvStep(cfg: Config, s: State, r: Role, need: nat, ch: Choice): State {
    match ch
    case Ok => TakeBytes(cfg, s, r, need)
    case Short(n) => if n < need then TakeBytes(cfg, s, r, n) else s
    case Fail => Local(cfg, s, r, Recvd([], true))
    case _ => s
  }

  /** send on the stream: all of it, part of it, or -1. */
  function OobSendStep(cfg: Config, s: State, r: Role, msg: seq<byte>, ch: Choice): State {
    var st := s.Oob(r);
    match ch
    case Ok => Local(cfg, s.WithOob(r, st.(sent := st.sent + msg)), r, Sent(|msg|))
    case Short(n) =>
      if n < |msg| then Local(cfg, s.WithOob(r, st.(sent := st.sent + msg[..n])), r, Sent(n)) else s
    case Fail => Local(cfg, s, r, Sent(-1))
    case _ => s
  }

  const TOKEN: seq<byte> := [0, 0, 0, 0]

  /** poll reports the stream readable: data, or end of file after the peer closed it. */
  predicate PollReady(s: State, r: Role) {
    s.Oob(r.Peer()).Avail() > 0 || SockClosed(s.P(r.Peer()))
  }

  function BarrierPollStep(cfg: Config, s: State, r: Role, e: Event): State {
    var t := Background(s, r, e);
    if PollReady(s, r) then Local(cfg, t, r, Readable(Nothing)) else t
  }

  function AllocStep(cfg: Config, s: State, r: Role, ch: Choice): State {
    if ch.Ok? then Local(cfg, s, r, Alloc(true))
    else if ch.Fail? then Local(cfg, s, r, Alloc(false))
    else s
  }

  function CreateStep(cfg: Config, s: State, r: Role, ch: Choice): State {
    if ch.Ok? then Local(cfg, s, r, Created(true))
    else if ch.Fail? then Local(cfg, s, r, Created(false))
    else s
  }

  function CallStep(cfg: Config, s: State, r: Role, ch: Choice): State {
    if ch.Ok? then Local(cfg, s, r, Called) else s
  }

  /** One progress before the send, whatever it does. */
  function PreProgressStep(cfg: Config, s: State, e: Event): State {
    if e.HandlerRuns? then
      if s.s.ep.Open? && s.s.epOk then Local(cfg, s, Server, Progress(PeerDown)) else s
    else Local(cfg, Background(s, Server, e), Server, Progress(Nothing))
  }

  function Act1(cfg: Config, s: State, r: Role, ch: Choice): State {
    var e := if ch.Ev? then ch.e else Idle;
    match s.P(r).pc
    case CRecvLen => OobRecvStep(cfg, s, r, HEADER, ch)
    case CRecvAddr => OobRecvStep(cfg, s, r, s.P(r).seen, ch)
    case SSendLen => OobSendStep(cfg, s, r, Bytes(|cfg.serverAddr|, HEADER), ch)
    case SSendAddr => OobSendStep(cfg, s, r, cfg.serverAddr, ch)
    case CAllocPeer | CAllocOut | CAllocIn | CAllocStr
      | SAllocIn | SAllocPeer | SAllocOut | SGenAlloc => AllocStep(cfg, s, r, ch)
    case CCreateEp | SCreateEp => CreateStep(cfg, s, r, ch)
    case CPostSend | SPostSend => PostSendStep(cfg, s, r, ch)
    case CPostRecv | SPostRecv => PostRecvStep(cfg, s, r, ch)
    case CWaitSend | SWaitSend => WaitSendStep(cfg, s, r, e)
    case CWaitRecv | SWaitRecv => WaitRecvStep(cfg, s, r, e)
    case CProbe => ClientProbeStep(cfg, s, e)
    case SProbe => ServerProbeStep(cfg, s, e)
    case SPreProgress => PreProgressStep(cfg, s, e)
    case SSpinFailed | SSpinKeepalive => Pass(cfg, s, r, e)
    case SPostFlush | PostClose => PostOpStep(cfg, s, r, ch)
    case SWaitFlush | WaitClose => WaitOpStep(cfg, s, r, e)
    case BarrierSend => OobSendStep(cfg, s, r, TOKEN, ch)
    case BarrierPoll => BarrierPollStep(cfg, s, r, e)
    case BarrierRecv => OobRecvStep(cfg, s, r, |TOKEN|, ch)
    case CloseSock | ReleaseAddr | DestroyWorker | CleanupCtx => CallStep(cfg, s, r, ch)
    case Done | Killed => s
  }

  function DeliverStep(s: State, from: Role, n: nat): State {
    var st := s.Oob(from);
    if st.arrived + n <= |st.sent| then s.WithOob(from, st.(arrived := st.arrived + n)) else s
  }

  /** One step of the joint machine. An action that is not possible leaves the state as it is. */
  function Next(cfg: Config, s: State, a: Action): State {
    match a
    case Deliver(from, n) => DeliverStep(s, from, n)
    case Act(r, ch) => Act1(cfg, s, r, ch)
  }

  /** A run: the states it passes through, from Init on, and the action between each two. */
  predicate IsRun(cfg: Config, run: seq<State>, acts: seq<Action>) {
    && |run| == |acts| + 1 && run[0] == Init()
    && forall i {:trigger acts[i]} :: 0 <= i < |acts| ==> run[i + 1] == Next(cfg, run[i], acts[i])
  }

  ghost predicate Reachable(cfg: Config, s: State) {
    exists run, acts :: IsRun(cfg, run, acts) && run[|acts|] == s
  }
}
