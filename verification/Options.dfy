/** parse_cmd: the getopt loop that fills the settings of one process. */
module Options {
  import opened Wire
  import opened Roles
  import Clean
  import PollWait

  /** One result of getopt. Numbers are what atoi and atol make of the argument, and `supported` what
      parse_mem_type finds. */
  datatype Opt =
    | Wait | EventFd | Busy | IPv6 | PrintConfig
    | Emulate(kind: string)
    | Name(name: string)
    | Port(number: int)
    | Size(length: int)
    | Memory(supported: bool)
    | Help
    | Unknown

  const DEFAULT_PORT := 13337
  const DEFAULT_SIZE := 4
  const TWO_16 := 0x1_0000

  function Emulation(kind: string): Option<FailureMode> {
    if kind == "recv" then Some(RecvFailure)
    else if kind == "send" then Some(SendFailure)
    else if kind == "keepalive" then Some(KeepaliveFailure)
    else None
  }

  /** The option makes parse_cmd give up. The port variable has 16 unsigned bits, so its test against
      zero rejects exactly the multiples of 65536. */
  predicate Rejects(o: Opt) {
    match o
    case Emulate(kind) => Emulation(kind) == None
    case Port(number) => number % TWO_16 == 0
    case Size(length) => length < 0
    case Memory(supported) => !supported
    case Help | Unknown => true
    case _ => false
  }

  /** The last option of a kind decides. */
  function LastFailure(opts: seq<Opt>): FailureMode
    decreases |opts|
  {
    if opts == [] then NoFailure
    else
      var o := opts[|opts| - 1];
      if o.Emulate? && Emulation(o.kind).Some? then Emulation(o.kind).value else LastFailure(opts[..|opts| - 1])
  }

  function LastMode(opts: seq<Opt>): Option<PollWait.Mode>
    decreases |opts|
  {
    if opts == [] then None
    else
      match opts[|opts| - 1]
      case Wait => Some(PollWait.WaitMode)
      case EventFd => Some(PollWait.EventFdMode)
      case Busy => Some(PollWait.ProbeMode)
      case _ => LastMode(opts[..|opts| - 1])
  }

  function LastSize(opts: seq<Opt>): int
    decreases |opts|
  {
    if opts == [] then DEFAULT_SIZE
    else if opts[|opts| - 1].Size? then opts[|opts| - 1].length
    else LastSize(opts[..|opts| - 1])
  }

  function LastPort(opts: seq<Opt>): nat
    decreases |opts|
  {
    if opts == [] then DEFAULT_PORT
    else if opts[|opts| - 1].Port? then opts[|opts| - 1].number % TWO_16
    else LastPort(opts[..|opts| - 1])
  }

  function LastName(opts: seq<Opt>): Option<string>
    decreases |opts|
  {
    if opts == [] then None
    else if opts[|opts| - 1].Name? then Some(opts[|opts| - 1].name)
    else LastName(opts[..|opts| - 1])
  }

  /** How far the loop gets: past every option, or to the first that it rejects. */
  function Accepts(opts: seq<Opt>): (n: nat)
    ensures n <= |opts|
    ensures forall i :: 0 <= i < n ==> !Rejects(opts[i])
    ensures n < |opts| ==> Rejects(opts[n])
  {
    if opts == [] || Rejects(opts[0]) then 0 else 1 + Accepts(opts[1..])
  }

  /** Option i is an -e, and the last one. */
  predicate LastEmulate(opts: seq<Opt>, i: nat) {
    i < |opts| && opts[i].Emulate? && forall j :: i < j < |opts| ==> !opts[j].Emulate?
  }

  predicate IsMode(o: Opt) {
    o.Wait? || o.EventFd? || o.Busy?
  }

  /** Option i is the last of -w, -f and -b. */
  predicate LastOfMode(opts: seq<Opt>, i: nat) {
    i < |opts| && IsMode(opts[i]) && forall j :: i < j < |opts| ==> !IsMode(opts[j])
  }

  /** The failure mode is the one the last -e names. */
  lemma {:induction false} FailureNamed(opts: seq<Opt>, i: nat)
    requires LastEmulate(opts, i) && !Rejects(opts[i])
    ensures LastFailure(opts) == RecvFailure <==> opts[i].kind == "recv"
    ensures LastFailure(opts) == SendFailure <==> opts[i].kind == "send"
    ensures LastFailure(opts) == KeepaliveFailure <==> opts[i].kind == "keepalive"
    decreases |opts|
  {
    if i < |opts| - 1 {
      FailureNamed(opts[..|opts| - 1], i);
    }
  }

  /** The test mode is the one the last of -w, -f and -b stands for, and unassigned without any. */
  lemma {:induction false} ModeNamed(opts: seq<Opt>, i: nat)
    requires LastOfMode(opts, i)
    ensures LastMode(opts) == Some(PollWait.WaitMode) <==> opts[i].Wait?
    ensures LastMode(opts) == Some(PollWait.EventFdMode) <==> opts[i].EventFd?
    ensures LastMode(opts) == Some(PollWait.ProbeMode) <==> opts[i].Busy?
    decreases |opts|
  {
    if i < |opts| - 1 {
      ModeNamed(opts[..|opts| - 1], i);
    }
  }

  lemma {:induction false} ModeNone(opts: seq<Opt>)
    requires forall o :: o in opts ==> !IsMode(o)
    ensures LastMode(opts) == None
    decreases |opts|
  {
    if opts != [] {
      assert !IsMode(opts[|opts| - 1]);
      ModeNone(opts[..|opts| - 1]);
    }
  }

  /** Size, port and name: those of the last option of the kind, or 4, 13337 and none. */
  lemma {:induction false} LastValues(opts: seq<Opt>, i: nat)
    requires i < |opts|
    ensures opts[i].Size? && (forall j :: i < j < |opts| ==> !opts[j].Size?) ==> LastSize(opts) == opts[i].length
    ensures opts[i].Port? && (forall j :: i < j < |opts| ==> !opts[j].Port?) ==>
              LastPort(opts) == opts[i].number % 65536
    ensures opts[i].Name? && (forall j :: i < j < |opts| ==> !opts[j].Name?) ==> LastName(opts) == Some(opts[i].name)
    decreases |opts|
  {
    if i < |opts| - 1 {
      LastValues(opts[..|opts| - 1], i);
    }
  }

  lemma {:induction false} DefaultValues(opts: seq<Opt>)
    ensures (forall o :: o in opts ==> !o.Size?) ==> LastSize(opts) == 4
    ensures (forall o :: o in opts ==> !o.Port?) ==> LastPort(opts) == 13337
    ensures (forall o :: o in opts ==> !o.Name?) ==> LastName(opts) == None
    decreases |opts|
  {
    if opts != [] {
      DefaultValues(opts[..|opts| - 1]);
    }
  }

  /** What parse_cmd accepts, option by option. */
  lemma RejectsExactly(o: Opt)
    ensures !Rejects(o) <==>
              && (o.Emulate? ==> o.kind in {"recv", "send", "keepalive"})
              && (o.Port? ==> o.number % 65536 != 0)
              && (o.Size? ==> o.length >= 0)
              && (o.Memory? ==> o.supported)
              && !o.Help? && !o.Unknown?
  {
  }

  lemma Literally(opts: seq<Opt>)
    ensures (forall i :: 0 <= i < |opts| ==> !Rejects(opts[i])) <==>
            forall o :: o in opts ==>
              && (o.Emulate? ==> o.kind in {"recv", "send", "keepalive"})
              && (o.Port? ==> o.number % 65536 != 0) && (o.Size? ==> o.length >= 0)
              && (o.Memory? ==> o.supported) && !o.Help? && !o.Unknown?
  {
    forall o: Opt
      ensures !Rejects(o) <==>
                && (o.Emulate? ==> o.kind in {"recv", "send", "keepalive"})
                && (o.Port? ==> o.number % 65536 != 0) && (o.Size? ==> o.length >= 0)
                && (o.Memory? ==> o.supported) && !o.Help? && !o.Unknown?
    {
      RejectsExactly(o);
    }
    hide Rejects;
  }

  lemma Named(opts: seq<Opt>)
    requires forall i :: 0 <= i < |opts| ==> !Rejects(opts[i])
    ensures forall i: nat :: LastEmulate(opts, i) ==>
              && (LastFailure(opts) == RecvFailure <==> opts[i].kind == "recv")
              && (LastFailure(opts) == SendFailure <==> opts[i].kind == "send")
              && (LastFailure(opts) == KeepaliveFailure <==> opts[i].kind == "keepalive")
    ensures forall i: nat :: LastOfMode(opts, i) ==>
              && (LastMode(opts) == Some(PollWait.WaitMode) <==> opts[i].Wait?)
              && (LastMode(opts) == Some(PollWait.EventFdMode) <==> opts[i].EventFd?)
              && (LastMode(opts) == Some(PollWait.ProbeMode) <==> opts[i].Busy?)
    ensures (forall o :: o in opts ==> !IsMode(o)) ==> LastMode(opts) == None
  {
    forall i: nat | LastEmulate(opts, i)
      ensures LastFailure(opts) == RecvFailure <==> opts[i].kind == "recv"
      ensures LastFailure(opts) == SendFailure <==> opts[i].kind == "send"
      ensures LastFailure(opts) == KeepaliveFailure <==> opts[i].kind == "keepalive"
    {
      FailureNamed(opts, i);
    }
    forall i: nat | LastOfMode(opts, i)
      ensures LastMode(opts) == Some(PollWait.WaitMode) <==> opts[i].Wait?
      ensures LastMode(opts) == Some(PollWait.EventFdMode) <==> opts[i].EventFd?
      ensures LastMode(opts) == Some(PollWait.ProbeMode) <==> opts[i].Busy?
    {
      ModeNamed(opts, i);
    }
    if forall o :: o in opts ==> !IsMode(o) {
      ModeNone(opts);
    }
  }

  class Settings {
    var err: ErrHandling
    /** None: the variable of main was never assigned. */
    var testMode: Option<PollWait.Mode>
    var serverName: Option<string>
    var port: nat
    var size: int

    constructor ()
      ensures testMode == None && serverName == None && port == DEFAULT_PORT && size == DEFAULT_SIZE
    {
      err, testMode, serverName := ErrHandling(HandleNone, NoFailure), None, None;
      port, size := DEFAULT_PORT, DEFAULT_SIZE;
    }

    /** The settings say what these options say last. */
    ghost predicate Says(opts: seq<Opt>)
      reads this
    {
      && err.failure == LastFailure(opts) && testMode == LastMode(opts) && serverName == LastName(opts)
      && port == LastPort(opts) && size == LastSize(opts)
    }

    ghost predicate Sound()
      reads this
    {
      Clean.Coupled(err) && 0 < port < TWO_16 && size >= 0
    }

    /** The switch: one option, after those of `before`. */
    method Apply(o: Opt, ghost before: seq<Opt>) returns (ok: bool)
      requires Says(before) && Sound()
      modifies this
      ensures ok <==> !Rejects(o)
      ensures ok ==> Says(before + [o]) && Sound()
      ensures ok ==> (err.failure != NoFailure <==> old(err).failure != NoFailure || o.Emulate?)
      ensures !ok ==> err.failure == old(err).failure
      ensures ok && o.Emulate? ==>
                && (err.failure == RecvFailure <==> o.kind == "recv")
                && (err.failure == SendFailure <==> o.kind == "send")
                && (err.failure == KeepaliveFailure <==> o.kind == "keepalive")
      ensures o.Wait? ==> testMode == Some(PollWait.WaitMode)
      ensures o.EventFd? ==> testMode == Some(PollWait.EventFdMode)
      ensures o.Busy? ==> testMode == Some(PollWait.ProbeMode)
    {
      assert (before + [o])[..|before|] == before;
      match o {
        case Wait => testMode := Some(PollWait.WaitMode);
        case EventFd => testMode := Some(PollWait.EventFdMode);
        case Busy => testMode := Some(PollWait.ProbeMode);
        case Emulate(kind) =>
          err := err.(mode := HandlePeer);
          if kind == "recv" {
            err := err.(failure := RecvFailure);
          } else if kind == "send" {
            err := err.(failure := SendFailure);
          } else if kind == "keepalive" {
            err := err.(failure := KeepaliveFailure);
          } else {
            return false;
          }
        case Name(name) => serverName := Some(name);
        case Port(number) =>
          port := number % TWO_16;
          if port <= 0 {
            return false;
          }
        case Size(length) =>
          size := length;
          if size < 0 {
            return false;
          }
        case Memory(supported) =>
          if !supported {
            return false;
          }
        case IPv6 | PrintConfig =>
        case Help | Unknown => return false;
      }
      return true;
    }

    /** parse_cmd. It accepts exactly when no option is rejected. Then every setting is that of the last
        option of its kind, and the error mode is PEER exactly when a failure mode was chosen. */
    method ParseCmd(opts: seq<Opt>) returns (ok: bool)
      requires testMode == None && serverName == None && port == DEFAULT_PORT && size == DEFAULT_SIZE
      modifies this
      ensures ok <==> forall i :: 0 <= i < |opts| ==> !Rejects(opts[i])
      ensures ok ==> Says(opts) && Sound()
      ensures ok ==> (err.failure != NoFailure <==> exists i :: 0 <= i < |opts| && opts[i].Emulate?)
      ensures !ok ==> Rejects(opts[Accepts(opts)]) && err.failure == LastFailure(opts[..Accepts(opts)])
      ensures ok <==> forall o :: o in opts ==>
                        && (o.Emulate? ==> o.kind in {"recv", "send", "keepalive"})
                        && (o.Port? ==> o.number % 65536 != 0) && (o.Size? ==> o.length >= 0)
                        && (o.Memory? ==> o.supported) && !o.Help? && !o.Unknown?
      ensures ok ==> forall i: nat :: LastEmulate(opts, i) ==>
                       && (err.failure == RecvFailure <==> opts[i].kind == "recv")
                       && (err.failure == SendFailure <==> opts[i].kind == "send")
                       && (err.failure == KeepaliveFailure <==> opts[i].kind == "keepalive")
      ensures ok ==> forall i: nat :: LastOfMode(opts, i) ==>
                       && (testMode == Some(PollWait.WaitMode) <==> opts[i].Wait?)
                       && (testMode == Some(PollWait.EventFdMode) <==> opts[i].EventFd?)
                       && (testMode == Some(PollWait.ProbeMode) <==> opts[i].Busy?)
      ensures ok && (forall o :: o in opts ==> !IsMode(o)) ==> testMode == None
    {
      err := ErrHandling(HandleNone, NoFailure);
      Literally(opts);
      var n := 0;
      while n < |opts|
        invariant 0 <= n <= |opts| && Accepts(opts) >= n && Says(opts[..n]) && Sound()
        invariant err.failure != NoFailure <==> exists i :: 0 <= i < n && opts[i].Emulate?
      {
        assert opts[..n + 1] == opts[..n] + [opts[n]];
        ok := Apply(opts[n], opts[..n]);
        if !ok {
          return;
        }
        n := n + 1;
      }
      assert opts[..n] == opts;
      Named(opts);
      return true;
    }
  }

  /** Two accepted command lines give a configuration that the survivor theorems apply to. */
  method ParseBoth(client: seq<Opt>, server: seq<Opt>, clientAddr: seq<byte>, serverAddr: seq<byte>)
    returns (cfg: Option<Config>)
    ensures cfg.Some? && cfg.value.Valid() ==> Clean.Accepted(cfg.value)
    ensures cfg.Some? <==> forall o :: o in client + server ==> !Rejects(o)
    ensures cfg.Some? ==> cfg.value.clientErr.failure == LastFailure(client)
                          && cfg.value.serverErr.failure == LastFailure(server)
                          && cfg.value.clientLen == LastSize(client) && cfg.value.serverLen == LastSize(server)
    ensures cfg.Some? ==> forall i: nat :: LastEmulate(client, i) ==>
                            && (cfg.value.clientErr.failure == RecvFailure <==> client[i].kind == "recv")
                            && (cfg.value.clientErr.failure == SendFailure <==> client[i].kind == "send")
                            && (cfg.value.clientErr.failure == KeepaliveFailure <==> client[i].kind == "keepalive")
    ensures cfg.Some? ==> forall i: nat :: LastEmulate(server, i) ==>
                            && (cfg.value.serverErr.failure == RecvFailure <==> server[i].kind == "recv")
                            && (cfg.value.serverErr.failure == SendFailure <==> server[i].kind == "send")
                            && (cfg.value.serverErr.failure == KeepaliveFailure <==> server[i].kind == "keepalive")
  {
    var c := new Settings();
    var s := new Settings();
    var ok := c.ParseCmd(client);
    if !ok {
      return None;
    }
    ok := s.ParseCmd(server);
    if !ok {
      return None;
    }
    return Some(Config(clientAddr, serverAddr, c.size, s.size, c.err, s.err));
  }
}
