# A verified model of the UCX hello-world client and server

Two processes, one program (`cpp/src/ucp_hello_world_v2.cpp`). The server sends its UCX worker address
over a TCP socket; the client creates an endpoint to it and sends its own address as a tagged message;
the server creates an endpoint back and sends a text; each side flushes or closes its endpoint, meets the
other in a barrier on the socket, and tears down. On request (`-e`) one side is killed in the middle and
the other must notice and leave. The project proves what this protocol guarantees in every interleaving
and under every failure, when it ends, and when it hangs.

`dafny verify dfyconfig.toml` checks everything (Dafny 4.11).

## How the files fit together

- `Wire.dfy`, `Roles.dfy`, `Machine.dfy`: the model. `Roles.LocalStep` is one process as a function of
  its state and the result of the call it is making, with one location per call into UCX, the socket or
  the allocator. `Machine.Next` joins two of them by two TCP streams (bytes arrive in pieces of any size)
  and one tag channel each way (a send completes eagerly, or late by either rendezvous scheme, reading
  the sender's buffer only then). An action that is not possible leaves the state alone, so every
  sequence of actions makes a run (`Machine.IsRun`, `Machine.Reachable`).
- `Safety.dfy`: the invariant of all runs, with any call failing at any time. `Guarantees.dfy`: what it
  means, property by property.
- `Measure.dfy`: a rank that every effective step lowers. `Clean.dfy`: what holds in addition when
  nothing fails but an injected kill and what the failure detector then does. `Liveness.dfy`, `Hang.dfy`:
  the configurations that cannot hang, and that the others do. `Fair.dfy`: infinite schedules. `Leak.dfy`,
  `Spin.dfy`: exactly when the server leaks its copy of an address, and when a failed send makes it spin.
- `Process.dfy`, `Helpers.dfy`, `ServerCode.dfy`, `ClientCode.dfy`, `MainCode.dfy`: the code itself,
  statement by statement on an object, tied to the step functions; `Link.dfy`: the processes of the joint
  machine are runs of that code, on results that answer its calls.
- `Returns.dfy`: return values, kills and the order of the calls, on every path.
- `Requests.dfy`, `PollWait.dfy`, `Sockets.dfy`, `MainLadder.dfy`, `Options.dfy`, `Buffers.dfy`: the
  request pool, the sleep of the client, the candidate search, the teardown ladder of `main`, the option
  loop, and the byte work on arrays.

## What is assumed of the environment

Streams are reliable and ordered. A posted message is not lost: it waits until the receiver's progress
takes it in. A request completes only inside a progress call of its owner, after its handler ran, and a
receive with NO_IMM_CMPL always yields a request. A rendezvous buffer is read after the match and before
its send completes; a send that ended with an error reads its buffer no more. `failure_handler` runs only
for an open endpoint. Arming a worker with events pending reports busy. Clean runs (`Clean.IsClean`) add
that allocations and socket calls succeed, and that a UCX call is turned down, a handler runs or an
operation breaks only after the peer is gone and only with peer error handling; fairness (`Fair.IsFair`)
adds that a process or stream that can go on eventually does, which covers progress, completions and the
failure detector.

## Where the code departs from its comments and intent

- The branch after a failed server send (`cpp/src/ucp_server.cpp:157-169`) is the reverse of its comment:
  it returns -1 when a failure mode was chosen, and when none was it waits for `failure_handler`, which then
  never runs: `Spin.SpinsExactly`, `Spin.SpinReached`. The model does what the code does.
- The client's string has no byte for a NUL beyond the `-s` bytes it copies (`cpp/src/ucp_client.cpp:175-184`),
  so `printf` reads past it when its `-s` is 0 or smaller than the server's; the server's own `printf`
  (`cpp/src/ucp_server.cpp:134`) reads past the message when its `-s` is 0: `Guarantees.PrintStaysInside`,
  `Guarantees.ServerPrints`, `Fair.OverrunExactly`.
- `generate_test_string` takes an `int` (`cpp/src/data_util.cpp:8`), so `-s` lengths of 2^31 and more
  send a text that is cut or fail: `Wire.ServerPayloadExact`, `Guarantees.TextDeliveredExactly`.
- The server never frees `peer_addr` (`cpp/src/ucp_server.cpp:91`): `Guarantees.ProcessLedger`, and for clean
  runs `Leak.LeaksExactly`.
- The client copies its own `-s` length out of the message, whatever the server sent
  (`cpp/src/ucp_client.cpp:182`): it reads past the message exactly when its length is the larger one,
  `Guarantees.StringDelivered`, `Fair.OverreadExactly`.
- The socket stays open when the address exchange fails (`cpp/src/ucp_hello_world_v2.cpp:168-189`), and
  that path can exit with code 0: `MainLadder.Program.RunMain`.
- With different `-e` settings on the two sides some pairs hang for ever, among them a client without
  `-e` and a server with `-e keepalive`: `Hang.LiveExactly` gives the exact condition.
- The client checks `ep_status` before it probes (`cpp/src/ucp_client.cpp:120-128`): a message that one pass takes
  in together with a failure is lost, whichever came first, `PollWait.BothAtOnce`; `PollWait.ProbeDecided` is exact.
- A failed `epoll_wait` other than by a signal counts as success (`cpp/src/ucp_client.cpp:43-47`); the
  loop then looks again, so nothing is missed.

## Model

| member | source | states |
|---|---|---|
| Wire.BytesRoundTrip | cpp/src/ucp_client.cpp:93 | a 64-bit length written low byte first reads back as itself |
| Wire.ValueRoundTrip | cpp/src/ucp_server.cpp:90 | any eight bytes are the encoding of the length read from them |
| Wire.FrameLayout | cpp/src/ucx_config.h:9-11 | a message is eight bytes that hold the payload's length, followed by the payload |
| Wire.FrameRoundTrip | cpp/src/ucp_server.cpp:90-103 | reading `data_len` and copying from `msg + 1` gives back the payload; a copy of k bytes stays inside the message exactly when k is at most the payload length |
| Wire.TextReads | cpp/src/data_util.cpp:14-16 | the text is the only one of its length that starts with A, goes on from each letter to the next and from Z to A, and ends with one NUL |
| Wire.ServerPayloadExact | cpp/src/ucp_server.cpp:125-131 | the payload sent is the promised text exactly for lengths below 2^31 |
| Wire.PrintPayload | cpp/src/ucp_client.cpp:175-184 | printing the first k payload bytes stays inside them if and only if k is positive and reaches the text's NUL, and then prints the letters |
| Wire.PrintPayloadExact | cpp/src/ucp_server.cpp:134 | printing the whole payload gives the promised letters if and only if the length is at least 1 and below 2^31 |
| Wire.PrintShort | cpp/src/ucp_client.cpp:175-184 | a client that copies 2 bytes of a text of 5 prints past its string |
| Buffers.CopyBytes | cpp/src/memory_utils.cpp:48-66 | copying into a buffer changes the copied range and nothing else |
| Buffers.SetMsgDataLen | cpp/src/ucp_server.cpp:15-17 | the header holds the length, the payload is untouched |
| Buffers.GenerateTestString | cpp/src/data_util.cpp:8-23 | success exactly with memory and a non-negative size; then the text is in place, from A on, each letter followed by the next and Z by A, with one NUL at its end, and the rest of the buffer is as before; failure changes nothing |
| Buffers.BuildDataMessage | cpp/src/ucp_server.cpp:125-132 | the message is a frame whose header is the full length, whatever the int conversion did to its text |
| Buffers.CopyString | cpp/src/ucp_client.cpp:175-182 | the client's string is the first k payload bytes |
| Buffers.BuildAndCopy | cpp/src/ucp_client.cpp:182 | built by the server and copied by the client with equal lengths, the string is the promised text exactly for lengths below 2^31 |
| Safety.NextInv | cpp/src/ucp_hello_world_v2.cpp:157-223 | every step of either process, of the network and of any failure keeps the invariant |
| Safety.RunInv | cpp/src/ucp_hello_world_v2.cpp:157-223 | every state along every run satisfies the invariant |
| Safety.ReachableInv | cpp/src/ucp_hello_world_v2.cpp:157-223 | every reachable state satisfies the invariant |
| Guarantees.AddressesMatch | cpp/src/ucp_server.cpp:90-117 | in every run an endpoint is only ever created to the peer's own address, byte for byte, on both sides |
| Guarantees.StringDelivered | cpp/src/ucp_client.cpp:155-187 | whenever the client's role returned 0 it copied the first bytes of the server's payload and gave just these to printf, unless it asked for more than was sent, and then exactly its copy read past the message |
| Guarantees.PrintStaysInside | cpp/src/ucp_client.cpp:175-184 | the client's printf reads past its string if and only if the string is empty or shorter than the server's text; it runs in every successful role whose copy stayed inside |
| Guarantees.TextDeliveredExactly | cpp/src/ucp_server.cpp:125-156 | with one length on both sides, a client that returned 0 copied the promised string if and only if the length is below 2^31, and printed the promised letters if and only if it is also at least 1 |
| Guarantees.ServerPrints | cpp/src/ucp_server.cpp:134 | the server has printed its payload and nothing else before it sends, and read past the message if and only if its length is 0 |
| Guarantees.BuffersStable | cpp/src/ucp_client.cpp:102-111 | no buffer is freed or changed while an operation on it is pending, so no rendezvous read or delivery meets a missing block |
| Guarantees.UniqueMatch | cpp/src/ucp_client.cpp:125-128 | though both directions use the one tag 0x1337a880, no worker ever holds two unmatched messages, and a successful probe returns the one its phase expects: 8 bytes longer than the address or the text |
| Guarantees.BarrierRendezvous | cpp/src/ucx_utils.cpp:191-213 | if barrier returned 0 on one side, both roles returned 0, the peer has sent its whole token of four bytes, and is past its barrier's send |
| Guarantees.StreamDiscipline | cpp/src/ucp_hello_world_v2.cpp:167-189 | under any segmentation the server's stream is a prefix of eight bytes that hold its address length, the address and four zeros, and the client has taken exactly 8 + address length bytes from the exchange until its barrier |
| Guarantees.RoleLedger | cpp/src/ucp_server.cpp:186-191 | when a role has returned, its endpoint is closed if it was created, by force exactly with peer error handling, and both message blocks are freed |
| Guarantees.ProcessLedger | cpp/src/ucp_server.cpp:91-105 | at its end the client owns no block; the server owns none if and only if it never copied the client's address, and otherwise just that copy |
| Guarantees.TeardownOrder | cpp/src/ucp_hello_world_v2.cpp:208-223 | address, worker and context are released in that order and all of them; nothing drives progress without them; the socket stays open exactly when the role function was never entered |
| Guarantees.BoundedWork | cpp/src/ucx_utils.cpp:204-207 | no run, failing or not, changes the state more than 118 + 3 * (address length) times |
| Returns.ServerReturnsExactly | cpp/src/ucp_server.cpp:51-191 | in every run: without an endpoint runServer returned 0 if its creation failed under a failure mode and else -1; with one -1 if the message was not built, or its send failed under a failure mode, and else 0 |
| Returns.ClientReturnsExactly | cpp/src/ucp_client.cpp:84-194 | in every run runUcxClient returned 0 if it copied the string and -1 otherwise |
| Returns.MainReturnsExactly | cpp/src/ucp_hello_world_v2.cpp:192-223 | main returns barrier's result if the role returned 0 without failure emulation, and the role's result otherwise |
| Returns.KilledExactly | cpp/src/ucp_client.cpp:113-153 | a process kills itself in three places only: the client when its own message was sent (recv) or the server's was probed (keepalive), the server when the address message was received (send) |
| Returns.ExchangeReturns | cpp/src/ucp_hello_world_v2.cpp:167-189 | what a transfer of the exchange moved becomes main's ret as an int, and is accepted exactly when it agrees with the length modulo 2^32 |
| Returns.NoneSkipped | cpp/src/ucp_server.cpp:41-187 | without failure emulation every result that lets the code go on leads to the very next call, on both sides, but for the server's two spins and the close that follows the client's string |
| Spin.SpinsExactly | cpp/src/ucp_server.cpp:157-169 | in any run whose failure handlers run only where peer error handling was asked for, a server whose send fails spins for the rest of the run if and only if it was given no failure mode; otherwise it frees its message and goes on to close with -1 |
| Spin.SpinReached | cpp/src/ucp_server.cpp:146-169 | some such run comes to the spin if and only if the server has no failure mode and its text can be built |
| Measure.NextRank | cpp/src/ucx_utils.cpp:282-284 | every step leaves the state as it is or lowers the rank of locations, stages and bytes outstanding |
| Measure.RankNonNegative | cpp/src/ucp_hello_world_v2.cpp:157-223 | the rank of a reachable state is never negative |
| Clean.NextClean | cpp/src/ucp_server.cpp:146-189 | every clean step keeps what clean runs guarantee in addition |
| Clean.CleanRunInv | cpp/src/ucp_server.cpp:146-189 | every state along a clean run satisfies both invariants |
| Clean.CleanReachableInv | cpp/src/ucp_server.cpp:146-189 | every state that a clean run reaches satisfies both invariants |
| Liveness.NeverStuck | cpp/src/ucp_client.cpp:113-153 | in a live configuration every state of a clean run is final or has a clean step that changes it: no wait on either side blocks the other for ever |
| Hang.SilentNeverFinishes | cpp/src/ucp_server.cpp:82-88 | a client without failure handling never ends when the server is killed before it sends |
| Hang.KeepaliveRun | cpp/src/ucp_server.cpp:173-178 | with keepalive on the server only, both wait in every clean run: the server for a failure, the client in its barrier |
| Hang.RendezvousRun | cpp/src/ucp_client.cpp:113-117 | with a kill of the client that the server does not expect, a rendezvous send of the server is never read |
| Hang.RunsOut | cpp/src/ucp_hello_world_v2.cpp:192-207 | any clean run can be continued until nothing clean moves any more |
| Hang.Hangs | cpp/src/ucp_hello_world_v2.cpp:192-207 | a configuration that is not live has a clean run that ends stuck |
| Hang.LiveExactly | cpp/src/ucp_hello_world_v2.cpp:192-207 | no clean run gets stuck if and only if the two `-e` settings and the server's length satisfy the stated condition |
| Fair.FinishesAfter | cpp/src/ucx_utils.cpp:282-284 | from any point of a fair clean schedule of a live configuration both processes end later |
| Fair.FairRunsFinish | cpp/src/ucx_utils.cpp:191-234 | every fair clean schedule of a live configuration ends both processes |
| Fair.FinishExactly | cpp/src/ucx_utils.cpp:191-234 | all fair clean schedules end both processes if and only if the configuration is live; any other has a fair clean schedule that never does |
| Fair.BothSucceed | cpp/src/ucp_hello_world_v2.cpp:204-223 | without failure emulation a finished clean run returned 0 from both roles, both barriers and both mains, and the text was copied and handed to printf |
| Fair.OverrunExactly | cpp/src/ucp_client.cpp:175-184 | without failure emulation, and with a copy inside the message, some clean run prints past the client's string if and only if the string is empty or shorter than the text |
| Fair.OverreadExactly | cpp/src/ucp_client.cpp:182 | without failure emulation some clean run copies past the message if and only if the server can build its text and the client's length is larger than the server's |
| Fair.SurvivorOutcome | cpp/src/ucx_utils.cpp:303-313 | the survivor of an injected kill left its role, never entered the barrier, closed its endpoint with FORCE if and only if it was created, and released socket, address, worker and context |
| Fair.SendModeKills | cpp/src/ucp_server.cpp:82-88 | a server in the send failure mode never sends, and ends by its kill unless the client was killed first and its address receive was turned down |
| Fair.SendModeEnds | cpp/src/ucp_server.cpp:64-88 | some clean run ends such a server other than by its kill if and only if the client is in the receive failure mode |
| Leak.ServerLeaks | cpp/src/ucp_server.cpp:91-105 | a server that ends in a clean run owns the copy of the client's address if it made one, and it made one unless the client is in the receive failure mode and the server in any |
| Leak.LeaksExactly | cpp/src/ucp_server.cpp:64-105 | every clean run that ends the server leaves it that copy if and only if the two failure settings are not of that kind: in the remaining ones some clean run ends it with no block |
| Link.RunIsFold | cpp/src/ucp_hello_world_v2.cpp:80-224 | along every run of the joint machine each process is where its code is after some trace of results, each of which answers the call the code is making |
| Link.CodeReaches | cpp/src/ucp_hello_world_v2.cpp:80-224 | the same for every reachable state |
| Link.CodeStands | cpp/src/ucp_hello_world_v2.cpp:80-224 | the code, run on such a trace until it stops, ends or is killed, stands in the very state of the joint machine |
| Link.ReplayServer | cpp/src/ucp_hello_world_v2.cpp:178-223 | the server's main, run on the results of its process, ends as that process did: exit code, blocks, no request left out |
| Link.ReplayClient | cpp/src/ucp_hello_world_v2.cpp:157-223 | the client's main likewise, with what it printed |
| Helpers.Await | cpp/src/ucx_utils.cpp:275-301 | the progress loop ends with the pass that completes its operation, only ep_status can change before, and the request that was handed out is freed |
| Helpers.Close | cpp/src/ucx_utils.cpp:303-313 | the endpoint is closed once, by force exactly with peer error handling, and the role's return value stands |
| ServerCode.AwaitMessage | cpp/src/ucp_server.cpp:41-49 | the probe loop ends with the probed length |
| ServerCode.AllocateMessage | cpp/src/ucp_server.cpp:51-54 | the message buffer is the only block, or the role returns -1 with none |
| ServerCode.ReceiveMessage | cpp/src/ucp_server.cpp:64-88 | a failed receive frees the buffer and returns -1; a received one leads on, or to the kill in the send failure mode |
| ServerCode.CopyPeerAddress | cpp/src/ucp_server.cpp:90-105 | the address copy is the only block left, or the role returns -1 with none |
| ServerCode.CreateEndpoint | cpp/src/ucp_server.cpp:107-121 | the endpoint goes to the copied address; without one the role returns 0 if a failure mode was chosen and -1 otherwise |
| ServerCode.BuildData | cpp/src/ucp_server.cpp:125-134 | the message is the frame of the payload, which was printed, or it is freed and the return value is -1 |
| ServerCode.SendMessage | cpp/src/ucp_server.cpp:146-157 | one progress pass, then the send and its wait; the message stays in place |
| ServerCode.AwaitFailure | cpp/src/ucp_server.cpp:165-178 | the spins end only when failure_handler has set ep_status |
| ServerCode.Flush | cpp/src/ucp_server.cpp:180-184 | whatever the flush comes to, the role goes on to return 0 and free its message |
| ServerCode.FinishSend | cpp/src/ucp_server.cpp:157-184 | -1 if the send failed under a failure mode, and else 0, whatever the flush comes to |
| ServerCode.SendData | cpp/src/ucp_server.cpp:125-187 | on every path the data message is freed exactly when it was allocated, before the close |
| ServerCode.ReceiveAddress | cpp/src/ucp_server.cpp:40-105 | the first half of the server leaves the address alone, or nothing |
| ServerCode.SendString | cpp/src/ucp_server.cpp:107-191 | the second half leaves the blocks it found and no open endpoint |
| ServerCode.RunServer | cpp/src/ucp_server.cpp:19-192 | the whole function follows the step function; its return value is given for every path by the endpoint, the address copy, the printed message and the outcome of the send; it closes what it created, frees its messages, leaves no request out and keeps at most the address copy |
| ClientCode.CreateEndpoint | cpp/src/ucp_client.cpp:76-85 | the endpoint goes to the received address, or the role returns -1 |
| ClientCode.BuildAddressMessage | cpp/src/ucp_client.cpp:87-94 | the message is the frame of the own address |
| ClientCode.SendAddress | cpp/src/ucp_client.cpp:96-106 | the send and its wait; the message stays in place until it is over |
| ClientCode.AwaitMessage | cpp/src/ucp_client.cpp:119-146 | the loop ends with a message, or with the endpoint failed |
| ClientCode.AllocateMessage | cpp/src/ucp_client.cpp:155-156 | the buffer has the probed length, or nothing is allocated |
| ClientCode.ReceiveMessage | cpp/src/ucp_client.cpp:158-171 | a failed receive frees the message with its own allocator |
| ClientCode.PrintString | cpp/src/ucp_client.cpp:175-190 | what is printed is what printf makes of the copied bytes alone, and only after a copy that stayed inside; the message is freed either way |
| ClientCode.SendPhase | cpp/src/ucp_client.cpp:87-117 | the address message is freed on every path, then the client receives, dies or closes |
| ClientCode.ReceivePhase | cpp/src/ucp_client.cpp:155-190 | return value and output from the probed message on, with all blocks and requests released |
| ClientCode.RunUcxClient | cpp/src/ucp_client.cpp:56-195 | the whole function follows the step function, returns 0 or -1, closes its endpoint, leaves no request out and leaves the blocks it found |
| MainCode.SendAddress | cpp/src/ucp_hello_world_v2.cpp:181-189 | the server goes on exactly when both sends pass their int checks |
| MainCode.ReceiveLength | cpp/src/ucp_hello_world_v2.cpp:166-169 | the length is accepted exactly when the receive passes its check; its count becomes main's ret |
| MainCode.ReceiveAddress | cpp/src/ucp_hello_world_v2.cpp:171-177 | the address buffer is owned on success and freed on failure |
| MainCode.AwaitReadable | cpp/src/ucx_utils.cpp:204-207 | the poll loop changes nothing but the location |
| MainCode.Barrier | cpp/src/ucx_utils.cpp:191-213 | barrier returns what the step function says, which is a failed send's own value, else 0 if exactly four bytes came in and 1 if not (`Returns.BarrierReturns`) |
| MainCode.CloseSocket | cpp/src/ucp_hello_world_v2.cpp:208-211 | the client frees the peer address; on the server it is NULL |
| MainCode.Leave | cpp/src/ucp_hello_world_v2.cpp:204-223 | the barrier is entered exactly after a role that returned 0 without failure emulation, and decides the exit code then; otherwise the role's result is the exit code; then everything is released |
| MainCode.ClientMain | cpp/src/ucp_hello_world_v2.cpp:157-223 | the client's main ends with no block, or by its kill |
| MainCode.ServerMain | cpp/src/ucp_hello_world_v2.cpp:178-223 | the server's main ends with at most the address copy, or by its kill |
| Requests.NextOk | cpp/src/ucx_utils.cpp:239-254 | every post, completion, wait and free keeps the pool invariant |
| Requests.RunOk | cpp/src/ucx_utils.cpp:275-301 | over any sequence of operations free requests have a clear flag; a request handed out is still held, or it was freed once, after its operation ended, with the status it ended with |
| Requests.SettledFreedOnce | cpp/src/ucx_utils.cpp:275-301 | when no request is out, which is what the role functions return with, every request ever handed out was freed exactly once and after its operation ended |
| Requests.BeginServes | cpp/src/ucx_utils.cpp:239-243 | a call on a settled pool gets a request, new or recycled, with a clear flag |
| Requests.EndSettles | cpp/src/ucx_utils.cpp:282-288 | ending that operation and waiting for it settles the pool again, and the waiter read the final status |
| Requests.ProgressKeeps | cpp/src/ucx_utils.cpp:264-273 | progress never takes a request from its operation |
| Requests.ProgressAlone | cpp/src/ucx_utils.cpp:245-254 | while one request is out, whatever progress completes, the pool is unchanged or has just that operation ended |
| Requests.Worker.Start | cpp/src/ucx_utils.cpp:239-243 | a recycled request is not initialised again |
| Requests.Worker.ProgressOnce | cpp/src/ucx_utils.cpp:245-254 | one progress call completes its batch in order |
| Requests.Worker.UcxWait | cpp/src/ucx_utils.cpp:275-301 | an error or NULL touches no request; otherwise the first pass that completes the operation ends the wait, its final status is returned, and the request is freed clean; with one request out the pool is then the one `Requests.End` gives, by which the role functions end their waits |
| Requests.Worker.Poll | cpp/src/ucx_utils.cpp:315-334 | the same for flush and close, whose loops pass before they look |
| PollWait.ArrivalsCovered | cpp/src/ucp_client.cpp:35-45 | whatever arrives after arming makes the descriptor readable |
| PollWait.WokenOrNothing | cpp/src/ucp_client.cpp:43-45 | one epoll_wait that never returns, or returns with nothing pending, saw no arrival at all |
| PollWait.SleptForNothing | cpp/src/ucp_client.cpp:39-45 | an armed sleeper that is never woken, however often signals interrupt it, missed nothing: nothing was pending and nothing ever arrived |
| PollWait.NoLostWakeup | cpp/src/ucp_client.cpp:35-45 | with arrivals at any point arming is refused, or the sleeper is woken, or nothing arrived |
| PollWait.ConsumeNews | cpp/src/ucp_client.cpp:129-132 | progress that took in nothing changed neither the probe's answer nor ep_status |
| PollWait.Client.EpollWait | cpp/src/ucp_client.cpp:43-45 | sleeping for ever means that no event is pending |
| PollWait.Client.Sleep | cpp/src/ucp_client.cpp:43-45 | an interrupted sleep is resumed |
| PollWait.Client.ArmAndWait | cpp/src/ucp_client.cpp:35-47 | success exactly if the worker was busy or the arming succeeded, whatever epoll_wait then came to; sleeping for ever means no event is pending |
| PollWait.Client.TestPollWait | cpp/src/ucp_client.cpp:15-54 | NO_MESSAGE exactly if one of the first three calls fails, or the arming of a worker that is not busy, and success otherwise; the calls made are those of the specification `Polled`, and the local descriptor is closed on every path that created it |
| PollWait.Client.WorkerWait | cpp/src/ucp_client.cpp:138-141 | returns at once with events pending, and sleeps for ever only if none comes |
| PollWait.Client.Receive | cpp/src/ucp_client.cpp:119-146 | in every mode: disconnected exactly if the endpoint failed, else the probed message exactly if one was taken in, else a failed wait, which the probing mode never has; sleeping for ever means no event pending, no message unprobed and no failure unseen; no descriptor is left behind |
| PollWait.ProbeDecided | cpp/src/ucp_client.cpp:119-146 | the probing loop ends after the first pass that takes in a message or a failure, disconnected if that pass took in a failure and with the message otherwise; without such a pass it never ends |
| PollWait.MessageFirst | cpp/src/ucp_client.cpp:119-132 | events taken in one at a time: a message before any failure is probed, given passes enough to reach it |
| PollWait.BothAtOnce | cpp/src/ucp_client.cpp:120-128 | a message and then a failure taken in by one pass: the client reports a disconnection |
| Sockets.PassedBalanced | cpp/src/ucx_utils.cpp:79-80 | every candidate passed over has its socket opened and closed once |
| Sockets.Conservation | cpp/src/ucx_utils.cpp:26-94 | exactly the returned descriptor stays open, none if negative, and every other one was opened once and closed once |
| Sockets.ReturnsLast | cpp/src/ucx_utils.cpp:62-81 | the returned descriptor is the one opened last: a client's connected socket, or the socket a server accepted, whose listening socket was opened before it and closed after it |
| Sockets.LaterUntried | cpp/src/ucx_utils.cpp:52-76 | candidates after the first decisive one are not tried, even when it failed |
| Sockets.Descriptors.ConnectCommon | cpp/src/ucx_utils.cpp:4-95 | a client gets its connected socket if and only if some candidate connects; a server the accepted one, with the listening one closed, if and only if some candidate passes every call and each one before it has no socket or only fails to bind; opens and closes are those of the first decisive candidate |
| Sockets.Descriptors.ConnectServer | cpp/src/ucx_utils.cpp:97-152 | the same search for the server role: the accepted socket is returned and the listening one closed |
| Sockets.Descriptors.ConnectClient | cpp/src/ucx_utils.cpp:154-189 | the same search for the client role |
| Sockets.SideBySide | cpp/src/ucx_utils.cpp:4-189 | on equal descriptor tables connect_common and the split form for its role return the same and leave the same log |
| MainLadder.EachOnce | cpp/src/ucp_hello_world_v2.cpp:208-223 | a disciplined log acquires each resource at most once and releases it exactly as often unless it is still held |
| MainLadder.Program.Initialise | cpp/src/ucp_hello_world_v2.cpp:108-151 | what is held at each label that the initialisation leaves by |
| MainLadder.Program.Exchange | cpp/src/ucp_hello_world_v2.cpp:157-190 | main reaches the roles exactly when every step of the exchange passed |
| MainLadder.Program.Communicate | cpp/src/ucp_hello_world_v2.cpp:192-208 | the socket is closed after the role returned and after the barrier if it is entered |
| MainLadder.Program.Leave | cpp/src/ucp_hello_world_v2.cpp:210-223 | each label releases what was acquired before it, and all of it |
| MainLadder.Program.RunMain | cpp/src/ucp_hello_world_v2.cpp:80-224 | for every outcome of every call all resources are released once, unused afterwards, in the end address, worker and context after the peer's address; the socket stays open exactly when the exchange failed after it; the exit code case by case: -1 without a connection, what a short transfer moved, 8 without memory, the barrier's result, or the role's; it is 0 if and only if role and barrier succeeded or one transfer of the exchange moved nothing |
| Options.Settings.Apply | cpp/src/ucp_hello_world_v2.cpp:278-334 | one option is accepted exactly when it is not rejected, and sets what it says: recv, send and keepalive their failure modes, -w, -f and -b their test modes |
| Options.LastValues | cpp/src/ucp_hello_world_v2.cpp:300-318 | size, port modulo 2^16 and name are those of the last option of the kind |
| Options.DefaultValues | cpp/src/ucp_hello_world_v2.cpp:57-61 | without such an option the size is 4, the port 13337, and there is no name |
| Options.Settings.ParseCmd | cpp/src/ucp_hello_world_v2.cpp:269-344 | a command line is accepted unless it has an unknown failure, a port that is 0 modulo 2^16, a negative size, an unsupported memory type, help or an unknown option; the failure mode is the one the last -e names and the test mode that of the last -w, -f or -b; every other setting is that of its last option; the error mode is PEER exactly when a failure mode is set |
| Options.ParseBoth | cpp/src/ucp_hello_world_v2.cpp:274-335 | two accepted command lines give a configuration that the liveness results apply to, with the failure mode that each side's last -e names |

## Left out

- UCX, the kernel's sockets, epoll and signals themselves: they are nondeterministic steps under the
  assumptions listed above.
- SIGPIPE: a send to a closed socket returns an error in the model; the source does not ignore the signal.
- CUDA memory and the dispatch of `cpp/src/memory_utils.cpp` by memory type: host memory only.
- `ucp_test_mode` read by main while unassigned (no `-w`, `-f` or `-b`): `Options.Settings.ParseCmd` reports
  it as absent; the role function fixes the probing mode at `cpp/src/ucp_client.cpp:72` anyway, so the joint
  machine has that mode only and the other two are in `PollWait.dfy`.
- The addresses behind the worker handles and the `addrinfo` list, which the split forms never free.
- Output other than the two lines that print the text, help text, `-c`, and the IPv6 switch beyond its being
  accepted.
- `cpp/src/simple_ucp_client.cpp`, `cpp/src/simple_ucp_server.cpp`, `cpp/src/hello_world_util.h` and the
  demos: split or older copies of the same logic.
- The `sleep(10)` before the server's send in the receive failure mode: the model has no clock, and every
  order of the two processes is a run anyway.
- The client's string block: it is allocated, printed and freed within one step, and appears by its bytes only.
- Killed processes: the operating system's release of what they held is not modelled.
- Requests.Worker.Poll: one method for the loops of `flush_ep` and `ep_close`, which differ only in what
  their callers do with the status.
- MainLadder.Program.RunMain: the role function is one use of worker and addresses here; its own ledger is in
  `ServerCode.dfy` and `ClientCode.dfy`.
