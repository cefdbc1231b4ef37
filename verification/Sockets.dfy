/** connect_common and its split forms connect_server and connect_client: loops over the candidate
    addresses of getaddrinfo, against the descriptor table. */
module Sockets {

  /** How each call on a candidate would turn out, if it is made. */
  datatype Candidate = Candidate(socket: bool, connects: bool, option: bool, binds: bool, listens: bool, accepts: bool)

  datatype Event = Opened(fd: nat) | Closed(fd: nat)

  // -------------------------------------------------------------------------------------------
  // What a search does, independent of its loop
  // -------------------------------------------------------------------------------------------

  /** The candidate ends the search: a client's connects, a server's binds or has setsockopt fail. */
  predicate Decisive(client: bool, c: Candidate) {
    c.socket && if client then c.connects else !c.option || c.binds
  }

  /** The first decisive candidate, |cs| if there is none. */
  function First(client: bool, cs: seq<Candidate>): (k: nat)
    ensures k <= |cs|
    ensures k < |cs| ==> Decisive(client, cs[k])
    ensures forall j :: 0 <= j < k ==> !Decisive(client, cs[j])
  {
    if cs == [] || Decisive(client, cs[0]) then 0 else 1 + First(client, cs[1..])
  }

  function Sockets(cs: seq<Candidate>): nat
    decreases |cs|
  {
    if cs == [] then 0 else Sockets(cs[..|cs| - 1]) + if cs[|cs| - 1].socket then 1 else 0
  }

  /** Candidates that are passed over: a socket that was opened is closed again. */
  function Passed(cs: seq<Candidate>, next: nat): seq<Event>
    decreases |cs|
  {
    if cs == [] then []
    else
      var front := cs[..|cs| - 1];
      var fd := next + Sockets(front);
      Passed(front, next) + if cs[|cs| - 1].socket then [Opened(fd), Closed(fd)] else []
  }

  datatype Search = Search(events: seq<Event>, fd: int)

  /** What the decisive candidate comes to. Only a connected or an accepted socket is returned. */
  function Final(client: bool, c: Candidate, fd: nat): Search {
    if client then Search([Opened(fd)], fd)
    else if c.option && c.listens && c.accepts then Search([Opened(fd), Opened(fd + 1), Closed(fd)], fd + 1)
    else Search([Opened(fd), Closed(fd)], -1)
  }

  /** The whole search over the candidates that getaddrinfo found; `next` is the next unused descriptor. */
  function Expected(client: bool, found: bool, cs: seq<Candidate>, next: nat): Search {
    var k := First(client, cs);
    if !found then Search([], -1)
    else if k == |cs| then Search(Passed(cs, next), -1)
    else
      var final := Final(client, cs[k], next + Sockets(cs[..k]));
      Search(Passed(cs[..k], next) + final.events, final.fd)
  }

  function OpenAfter(log: seq<Event>): set<nat>
    decreases |log|
  {
    if log == [] then {}
    else
      var was := OpenAfter(log[..|log| - 1]);
      match log[|log| - 1]
      case Opened(fd) => was + {fd}
      case Closed(fd) => was - {fd}
  }

  /** Every descriptor is opened once, in order from `next`, and closed only while open. */
  predicate Balanced(log: seq<Event>, next: nat)
    decreases |log|
  {
    log == [] ||
    var front := log[..|log| - 1];
    && Balanced(front, next)
    && match log[|log| - 1]
       case Opened(fd) => fd == next + Opens(front)
       case Closed(fd) => fd in OpenAfter(front)
  }

  function Opens(log: seq<Event>): nat
    decreases |log|
  {
    if log == [] then 0 else Opens(log[..|log| - 1]) + if log[|log| - 1].Opened? then 1 else 0
  }

  lemma More(log: seq<Event>, e: Event, next: nat)
    ensures OpenAfter(log + [e]) == if e.Opened? then OpenAfter(log) + {e.fd} else OpenAfter(log) - {e.fd}
    ensures Opens(log + [e]) == Opens(log) + if e.Opened? then 1 else 0
    ensures Balanced(log + [e], next) <==>
              Balanced(log, next) && if e.Opened? then e.fd == next + Opens(log) else e.fd in OpenAfter(log)
  {
    assert (log + [e])[..|log|] == log;
  }

  lemma OpenClose(log: seq<Event>, fd: nat, next: nat)
    requires Balanced(log, next) && OpenAfter(log) == {} && fd == next + Opens(log)
    ensures var two := log + [Opened(fd), Closed(fd)];
            Balanced(two, next) && OpenAfter(two) == {} && Opens(two) == Opens(log) + 1
  {
    More(log, Opened(fd), next);
    More(log + [Opened(fd)], Closed(fd), next);
    assert log + [Opened(fd), Closed(fd)] == (log + [Opened(fd)]) + [Closed(fd)];
  }

  lemma {:induction false} PassedBalanced(cs: seq<Candidate>, next: nat)
    ensures Balanced(Passed(cs, next), next) && OpenAfter(Passed(cs, next)) == {}
         && Opens(Passed(cs, next)) == Sockets(cs)
    decreases |cs|
  {
    if cs != [] {
      var front := cs[..|cs| - 1];
      PassedBalanced(front, next);
      if cs[|cs| - 1].socket {
        OpenClose(Passed(front, next), next + Sockets(front), next);
      } else {
        assert Passed(cs, next) == Passed(front, next);
      }
    }
  }

  /** Descriptor conservation: exactly the returned descriptor stays open, none when it is negative, and
      every other one was opened once and closed once. */
  lemma Conservation(client: bool, found: bool, cs: seq<Candidate>, next: nat)
    ensures var r := Expected(client, found, cs, next);
            && Balanced(r.events, next)
            && OpenAfter(r.events) == (if r.fd >= 0 then {r.fd} else {})
            && (r.fd < 0 ==> r.fd == -1)
  {
    hide Balanced, OpenAfter, Opens, First, Sockets;
    var k := First(client, cs);
    PassedBalanced(if found then cs[..k] else [], next);
    assert cs[..|cs|] == cs;
    if found && k < |cs| {
      var log, fd := Passed(cs[..k], next), next + Sockets(cs[..k]);
      OpenClose(log, fd, next);
      More(log, Opened(fd), next);
      var one := log + [Opened(fd)];
      More(one, Opened(fd + 1), next);
      var two := one + [Opened(fd + 1)];
      More(two, Closed(fd), next);
      assert log + [Opened(fd), Opened(fd + 1), Closed(fd)] == two + [Closed(fd)];
    }
  }

  /** A client ends with the opening of fd; a server with that of a listening socket, that of fd right after it,
      and the close of the listening one. */
  predicate EndsWith(client: bool, log: seq<Event>, fd: nat) {
    if client then |log| > 0 && log[|log| - 1] == Opened(fd)
    else fd > 0 && |log| >= 3 && log[|log| - 3..] == [Opened(fd - 1), Opened(fd), Closed(fd - 1)]
  }

  /** Which descriptor is returned: the last one that was opened. A client's is the connected socket; a
      server's the accepted one, and the listening socket opened before it is closed. */
  lemma ReturnsLast(client: bool, found: bool, cs: seq<Candidate>, next: nat)
    ensures var r := Expected(client, found, cs, next);
            r.fd >= 0 ==>
              r.fd == next + Opens(r.events) - 1 && Closed(r.fd) !in r.events && EndsWith(client, r.events, r.fd)
  {
    hide Balanced, OpenAfter, Opens, First, Sockets, Passed, EndsWith, Decisive;
    var k := First(client, cs);
    if found && k < |cs| {
      var log, fd := Passed(cs[..k], next), next + Sockets(cs[..k]);
      PassedBalanced(cs[..k], next);
      PassedBelow(cs[..k], next);
      LastTwo(log, fd, next);
    }
  }

  lemma LastTwo(log: seq<Event>, fd: nat, next: nat)
    requires fd == next + Opens(log) && forall e :: e in log ==> e.fd < fd
    ensures var c := log + [Opened(fd)]; fd == next + Opens(c) - 1 && Closed(fd) !in c && EndsWith(true, c, fd)
    ensures var s := log + [Opened(fd), Opened(fd + 1), Closed(fd)];
            fd + 1 == next + Opens(s) - 1 && Closed(fd + 1) !in s && EndsWith(false, s, fd + 1)
  {
    hide Opens;
    More(log, Opened(fd), next);
    var one := log + [Opened(fd)];
    More(one, Opened(fd + 1), next);
    var two := one + [Opened(fd + 1)];
    More(two, Closed(fd), next);
    assert log + [Opened(fd), Opened(fd + 1), Closed(fd)] == two + [Closed(fd)];
  }

  lemma EndsAfter(client: bool, log: seq<Event>, found: bool, cs: seq<Candidate>, next: nat)
    ensures var r := Expected(client, found, cs, next); r.fd >= 0 ==> EndsWith(client, log + r.events, r.fd)
  {
    ReturnsLast(client, found, cs, next);
    hide Expected;
  }

  lemma {:induction false} PassedBelow(cs: seq<Candidate>, next: nat)
    ensures forall e :: e in Passed(cs, next) ==> e.fd < next + Sockets(cs)
    decreases |cs|
  {
    if cs != [] {
      PassedBelow(cs[..|cs| - 1], next);
    }
  }

  /** Some candidate connects. */
  predicate SomeConnects(cs: seq<Candidate>) {
    exists c :: c in cs && c.socket && c.connects
  }

  /** Some candidate passes every call of a server, and before it each candidate has no socket or only fails
      to bind: a failed setsockopt, listen or accept ends the search at once. */
  predicate SomeAccepts(cs: seq<Candidate>) {
    exists k :: 0 <= k < |cs| && cs[k] == Candidate(true, cs[k].connects, true, true, true, true)
                && forall j :: 0 <= j < k ==> !cs[j].socket || (cs[j].option && !cs[j].binds)
  }

  lemma ClientSucceeds(cs: seq<Candidate>, next: nat)
    ensures Expected(true, true, cs, next).fd >= 0 <==> SomeConnects(cs)
  {
    var k := First(true, cs);
    if k < |cs| {
      assert cs[k] in cs;
    }
  }

  lemma ServerSucceeds(cs: seq<Candidate>, next: nat)
    ensures Expected(false, true, cs, next).fd >= 0 <==> SomeAccepts(cs)
  {
    var k := First(false, cs);
    if k < |cs| && Expected(false, true, cs, next).fd >= 0 {
      assert forall j :: 0 <= j < k ==> !Decisive(false, cs[j]);
    }
    if i :| 0 <= i < |cs| && cs[i] == Candidate(true, cs[i].connects, true, true, true, true)
            && forall j :: 0 <= j < i ==> !cs[j].socket || (cs[j].option && !cs[j].binds) {
      assert Decisive(false, cs[i]);
      assert k == i;
    }
  }

  lemma {:induction false} FirstOfMore(client: bool, cs: seq<Candidate>, more: seq<Candidate>)
    requires First(client, cs) < |cs|
    ensures First(client, cs + more) == First(client, cs)
  {
    if !Decisive(client, cs[0]) {
      FirstOfMore(client, cs[1..], more);
      assert (cs + more)[1..] == cs[1..] + more;
    }
  }

  /** The search stops at its first decisive candidate: later ones are not tried, even when it failed. */
  lemma LaterUntried(client: bool, cs: seq<Candidate>, more: seq<Candidate>, next: nat)
    requires First(client, cs) < |cs|
    ensures Expected(client, true, cs + more, next) == Expected(client, true, cs, next)
  {
    hide First, Final, Passed, Sockets, Decisive;
    FirstOfMore(client, cs, more);
    var k := First(client, cs);
    assert (cs + more)[..k] == cs[..k] && (cs + more)[k] == cs[k];
  }

  /** One candidate further: it ends the search, or it is passed over. */
  lemma PassOne(client: bool, cs: seq<Candidate>, t: nat, next: nat)
    requires t < |cs| && First(client, cs) >= t
    ensures Decisive(client, cs[t]) <==> First(client, cs) == t
    ensures !Decisive(client, cs[t]) ==> First(client, cs) > t
    ensures Decisive(client, cs[t]) ==>
              var final := Final(client, cs[t], next + Sockets(cs[..t]));
              Expected(client, true, cs, next) == Search(Passed(cs[..t], next) + final.events, final.fd)
    ensures Sockets(cs[..t + 1]) == Sockets(cs[..t]) + if cs[t].socket then 1 else 0
    ensures var fd := next + Sockets(cs[..t]);
            Passed(cs[..t + 1], next) == Passed(cs[..t], next) + if cs[t].socket then [Opened(fd), Closed(fd)] else []
  {
    assert cs[..t + 1][..t] == cs[..t];
  }

  lemma PassNone(client: bool, cs: seq<Candidate>, next: nat)
    ensures Sockets(cs[..0]) == 0 && Passed(cs[..0], next) == []
    ensures Expected(client, false, cs, next) == Search([], -1)
    ensures First(client, cs) == |cs| ==> Expected(client, true, cs, next) == Search(Passed(cs, next), -1)
  {
  }

  // -------------------------------------------------------------------------------------------
  // The code
  // -------------------------------------------------------------------------------------------

  class Descriptors {
    var next: nat
    var log: seq<Event>

    constructor ()
      ensures next == 0 && log == []
    {
      next, log := 0, [];
    }

    /** socket or accept: the next descriptor, or -1. */
    method Open(ok: bool) returns (fd: int)
      modifies this
      ensures if ok then fd == old(next) && next == fd + 1 && log == old(log) + [Opened(old(next))]
              else fd == -1 && next == old(next) && log == old(log)
    {
      if !ok {
        return -1;
      }
      fd := next;
      log := log + [Opened(next)];
      next := next + 1;
    }

    method Close(fd: nat)
      modifies this`log
      ensures log == old(log) + [Closed(fd)]
    {
      log := log + [Closed(fd)];
    }

    /** The search came out as expected. */
    twostate predicate Did(s: Search)
      reads this
    {
      log == old(log) + s.events
    }

    /** connect_common with a server name (client) or without one. */
    method ConnectCommon(client: bool, found: bool, cs: seq<Candidate>) returns (sockfd: int)
      modifies this
      ensures Did(Expected(client, found, cs, old(next)))
      ensures sockfd == Expected(client, found, cs, old(next)).fd
      ensures sockfd >= 0 ==> EndsWith(client, log, sockfd)
      ensures found ==> (sockfd >= 0 <==> if client then SomeConnects(cs) else SomeAccepts(cs))
      ensures !found || sockfd < 0 ==> sockfd == -1
    {
      sockfd := -1;
      ClientSucceeds(cs, next);
      ServerSucceeds(cs, next);
      EndsAfter(client, log, found, cs, next);
      PassNone(client, cs, next);
      hide Passed, Sockets, First, Expected, SomeConnects, SomeAccepts, EndsWith;
      if !found {
        return;
      }
      var t := 0;
      while t < |cs|
        invariant 0 <= t <= |cs| && sockfd == -1 && First(client, cs) >= t
        invariant log == old(log) + Passed(cs[..t], old(next)) && next == old(next) + Sockets(cs[..t])
      {
        PassOne(client, cs, t, old(next));
        var c := cs[t];
        t := t + 1;
        sockfd := Open(c.socket);
        if sockfd < 0 {
          continue;
        }
        if client {
          if c.connects {
            return;
          }
        } else {
          if !c.option {
            Close(sockfd);
            sockfd := -1;
            return;
          }
          if c.binds {
            if !c.listens {
              Close(sockfd);
              sockfd := -1;
              return;
            }
            var listenfd := sockfd;
            sockfd := Open(c.accepts);
            Close(listenfd);
            return;
          }
        }
        Close(sockfd);
        sockfd := -1;
      }
      assert cs[..|cs|] == cs;
    }

    /** connect_server: the same search as connect_common without a name. */
    method ConnectServer(found: bool, cs: seq<Candidate>) returns (sockfd: int)
      modifies this
      ensures Did(Expected(false, found, cs, old(next)))
      ensures sockfd == Expected(false, found, cs, old(next)).fd
      ensures sockfd >= 0 ==> EndsWith(false, log, sockfd)
      ensures found ==> (sockfd >= 0 <==> SomeAccepts(cs))
      ensures !found || sockfd < 0 ==> sockfd == -1
    {
      sockfd := -1;
      ServerSucceeds(cs, next);
      EndsAfter(false, log, found, cs, next);
      PassNone(false, cs, next);
      hide Passed, Sockets, First, Expected, SomeConnects, SomeAccepts, EndsWith;
      if !found {
        return;
      }
      var t := 0;
      while t < |cs|
        invariant 0 <= t <= |cs| && sockfd == -1 && First(false, cs) >= t
        invariant log == old(log) + Passed(cs[..t], old(next)) && next == old(next) + Sockets(cs[..t])
      {
        PassOne(false, cs, t, old(next));
        var c := cs[t];
        t := t + 1;
        sockfd := Open(c.socket);
        if sockfd < 0 {
          continue;
        }
        if !c.option {
          Close(sockfd);
          sockfd := -1;
          return;
        }
        if c.binds {
          if !c.listens {
            Close(sockfd);
            sockfd := -1;
            return;
          }
          var listenfd := sockfd;
          sockfd := Open(c.accepts);
          Close(listenfd);
          return;
        }
        Close(sockfd);
        sockfd := -1;
      }
      assert cs[..|cs|] == cs;
    }

    /** connect_client: the same search as connect_common with a name. */
    method ConnectClient(found: bool, cs: seq<Candidate>) returns (sockfd: int)
      modifies this
      ensures Did(Expected(true, found, cs, old(next)))
      ensures sockfd == Expected(true, found, cs, old(next)).fd
      ensures sockfd >= 0 ==> EndsWith(true, log, sockfd)
      ensures found ==> (sockfd >= 0 <==> SomeConnects(cs))
      ensures !found || sockfd < 0 ==> sockfd == -1
    {
      sockfd := -1;
      ClientSucceeds(cs, next);
      EndsAfter(true, log, found, cs, next);
      PassNone(true, cs, next);
      hide Passed, Sockets, First, Expected, SomeConnects, SomeAccepts, EndsWith;
      if !found {
        return;
      }
      var t := 0;
      while t < |cs|
        invariant 0 <= t <= |cs| && sockfd == -1 && First(true, cs) >= t
        invariant log == old(log) + Passed(cs[..t], old(next)) && next == old(next) + Sockets(cs[..t])
      {
        PassOne(true, cs, t, old(next));
        var c := cs[t];
        t := t + 1;
        sockfd := Open(c.socket);
        if sockfd < 0 {
          continue;
        }
        if c.connects {
          return;
        }
        Close(sockfd);
        sockfd := -1;
      }
      assert cs[..|cs|] == cs;
    }
  }

  /** The refinement, run side by side: on equal descriptor tables connect_common makes the same opens and
      closes and returns the same descriptor as the split form for its role. */
  method SideBySide(a: Descriptors, b: Descriptors, client: bool, found: bool, cs: seq<Candidate>)
    returns (common: int, split: int)
    requires a != b && a.next == b.next && a.log == b.log
    modifies a, b
    ensures common == split && a.log == b.log
  {
    common := a.ConnectCommon(client, found, cs);
    if client {
      split := b.ConnectClient(found, cs);
    } else {
      split := b.ConnectServer(found, cs);
    }
  }
}
