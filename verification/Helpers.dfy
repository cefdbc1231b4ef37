/** ucx_wait, flush_ep and ep_close_err_mode as the role functions call them. */
module Helpers {
  import opened Wire
  import opened Roles
  import opened Runtime
  import Requests

  datatype Operation = ASend | AReceive | AnEpOperation {
    predicate Finishes(o: Obs) {
      o.Progress? && if ASend? then o.seen.SendDone? else if AReceive? then o.seen.RecvDone? else o.seen.OpDone?
    }

    function Kind(): Requests.Op {
      if AnEpOperation? then Requests.Polled else Requests.WithHandler
    }

    /** The status the operation ended with, as success or failure. */
    function Code(o: Obs): int
      requires Finishes(o)
    {
      if (if ASend? then o.seen.ok else if AReceive? then o.seen.received else o.seen.closed) then 0 else -1
    }
  }

  /** The process is in the progress loop of this operation. */
  predicate Pending(op: Operation, r: Role, p: Proc) {
    match op
    case ASend => p.ep.Open? && if r.Client? then p.pc.CWaitSend? else p.pc.SWaitSend?
    case AReceive => if r.Client? then p.pc.CWaitRecv? && p.ep.Open? else p.pc.SWaitRecv? && p.ep == NoEp
    case AnEpOperation => (p.pc.WaitClose? && p.ep.Closed?) || (p.pc.SWaitFlush? && p.ep.Open? && r.Server?)
  }

  /** A pass that does not finish the operation leaves the process where it is, but for ep_status. */
  lemma PassWaiting(cfg: Config, r: Role, p: Proc, op: Operation, o: Obs)
    requires Pending(op, r, p) && !op.Finishes(o)
    ensures LocalStep(cfg, r, p, o) == if o == Progress(PeerDown) && p.ep.Open? then FailureSeen(p) else p
  {
  }

  /** The wait for the request that the last call handed out, in ucx_wait, flush_ep and ep_close: it ends
      with the pass that completes the operation, and until then only failure_handler may run. Then the
      request is freed, and none is left out. */
  method Await(p: Process, op: Operation) returns (r: Wait<Obs>, ghost before: Proc)
    requires p.Follows() && Pending(op, p.role, p.st) && p.epOk == p.st.epOk && p.ep == p.st.ep
    requires Requests.Settled(p.pool) && |p.pool.calls| + 1 == p.Handed()
    modifies p`pos, p`st, p`epOk, p`pool
    ensures before == old(p.st).(epOk := p.epOk)
    ensures r.Got? ==> p.Follows() && p.NoneOut() && op.Finishes(r.value)
                       && p.st == LocalStep(p.cfg, p.role, before, r.value)
    ensures r.Never? ==> p.st == before && p.Stopped()
  {
    hide LocalStep, Fold, Laters, Requests.Settled, Requests.Serving;
    before := p.st;
    r := Never;
    var request := p.Begin(op.Kind());
    while true
      invariant p.Follows() && Requests.Serving(p.pool, request, op.Kind()) && |p.pool.calls| == p.Handed()
      invariant before == p.st && before == old(p.st).(epOk := p.epOk)
      decreases |p.trace| - p.pos
    {
      var o: Obs;
      o :- p.Take(Pass);
      if op.Finishes(o) {
        p.End(request, op.Kind(), op.Code(o));
        return Got(o), before;
      }
      PassWaiting(p.cfg, p.role, before, op, o);
      if o == Progress(PeerDown) && p.ep.Open? {
        p.epOk := false;
      }
      before := p.st;
    }
  }

  lemma CloseSteps(cfg: Config, r: Role, p: Proc, o: Obs)
    requires (p.pc.PostClose? && p.ep.Open? && o.Post?) || (p.pc.WaitClose? && AnEpOperation.Finishes(o))
    ensures var q := if p.pc.PostClose? then p.(ep := Closed(p.ep.addr, cfg.Err(r).mode == HandlePeer)) else p;
            LocalStep(cfg, r, p, o) == if o == Post(Later) then q.(pc := WaitClose) else AfterRole(cfg.Failure(r), q)
  {
    hide AfterRole;
  }

  /** ep_close_err_mode, then the return of the role function. */
  method Close(p: Process, ret: int) returns (r: Wait<End>)
    requires p.At(PostClose) && p.ep.Open? && p.st.ret == ret
    requires p.heap.outMsg == None && p.heap.inMsg == None
    modifies p`pos, p`st, p`epOk, p`ep, p`pool
    ensures r.Got? ==> r.value == Returned(ret) && p.Ended(r.value) && p.ep.Closed? && p.ep.addr == old(p.ep).addr
    ensures r.Got? ==> p.st.sent == old(p.st).sent
    ensures r.Never? ==> p.Stopped()
  {
    hide LocalStep, Fold, Laters, Requests.Settled;
    var closeReq :- p.Take(Posting);
    CloseSteps(p.cfg, p.role, old(p.st), closeReq);
    p.ep := Closed(p.ep.addr, p.cfg.Err(p.role).mode == HandlePeer);
    if closeReq.posted == Later {
      ghost var before;
      var done;
      done, before :- Await(p, AnEpOperation);
      CloseSteps(p.cfg, p.role, before, done);
    }
    return Got(Returned(ret));
  }
}
