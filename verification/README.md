# Enclave bridge: a verified model of its protocols

An enclave has no network of its own. A bridge process on the host accepts a connection from it, exchanges
settings with it, and then runs tunnels on its behalf for as long as the two keep hearing from each other.
This project models the protocols that make that work, and proves what they rely on. It is a Dafny project of
its own: `dafny verify dfyconfig.toml` checks all of it.

The network, the scheduler, the clock and cancellation are choices of the environment. A connection is two
byte streams that are read in chunks of any size; every read call owns a buffered reader that goes away with
what it has read past the delimiter. What happens concurrently is a state machine whose runs are all
interleavings; what one goroutine does in a loop, on an object or on a buffer is a method on that object.

| file | what it models |
|---|---|
| `Options`, `Streams`, `Framing` | bytes, frames, and delimiter framing by a fresh buffered reader per call |
| `CancellableIo` | the read and write helpers: a worker, two channels, a caller and a context |
| `Heartbeats`, `Watchdog`, `WatchdogTiming` | heartbeats on the wire; the read loops and the event loop; the deadline in discrete time |
| `Utf8`, `Json`, `JsonEnds`, `Settings`, `ShortSettings`, `Environment` | the two payloads of the handshake and their encoding |
| `Pairing`, `PairingPipes`, `PairingInvariant`, `PairingSteps`, `PairingTheorems`, `PairingProgress`, `PairingTeardown`, `PairingBeats`, `PairingStarts`, `AckInBeats` | any number of enclave and bridge incarnations on one port |
| `HandshakeSetup`, `BridgeSetup`, `BridgeRun` | the objects at the two ends, the group of members a bridge runs, and its teardown |
| `ClientTunnel`, `BufferPool` | an outgoing connection from dial to copy; copying through a shared pool |
| `AttestationCache`, `Renewal` | the attestation endpoint and its cache; certificate renewal and the switch |

## What comes out

**Fencing.** In every reachable state of any number of restarts, with any IDs, a bridge's deadline moves on a
complete frame equal to the heartbeat of the ID in its own settings and on nothing else, and that frame came from
an enclave with that ID: from the very one that configured the bridge, if the ID was drawn only once. Any other
frame brings the bridge down; the ACK of a restarted enclave is such a frame, and nothing keeps it from being
read. A fresh bridge takes a step on an old enclave's heartbeats if and only if the enclave's ID begins with the two
bytes of the ACK. An ID with the byte 0x0A anywhere in it never keeps a bridge alive: which IDs and which chunkings
work is stated exactly in `Heartbeats`. With any other ID, an enclave and a bridge that have found each other can
always keep each other alive, and from any state with a free port a new pair can find each other.

**The handshake** is in lock step, so that readers which throw away what they have buffered throw away nothing;
it delivers both payloads unchanged; and unless one end goes away it runs to its end. That is the ACK if and only if
the log level in the settings is one the bridge knows and a watchdog can be made from them, with an ID that is not
nil and a positive interval; otherwise the bridge ends itself. Nothing else here depends on the ID.

**Framing**, on its own, loses bytes exactly when a chunk carries bytes past a delimiter.

**The read helper** returns what the read returned, or the context's error, or nothing at all with no error. The
last happens only under cancellation, and the watchdog's read loop, which cuts the last byte off whatever came
without an error, is safe exactly when there is none.

**The watchdog** never times out on a connected peer if and only if connecting and delivering together take less
than the interval less its half. Its event loop can receive a mismatch exactly from the first foreign frame on, and
time out exactly from one interval without a heartbeat on.

## Where the code and its descriptions differ

- `README.md:81-85` of the repository has the enclave start its watchdog after the final ACK. In the code the
  watchdog starts when the handshake connection is closed, whether or not the ACK came
  (`pkg/enclave/handshake/enclave_setup.go:155-161`); the model follows the code, and `Ready(ok)` in `Pairing`
  keeps `ok` apart.
- The comment at `pkg/enclave/enclave.go:141-142` takes a receive to mean that a result was sent. The caller can
  also receive from channels that were closed without a send, and then returns neither data nor error;
  `CancellableIo.Results` has that outcome.
- `cmd/enclave-bridge/bridge.go:139-140` says that a run blocks until the context is done or an error occurs. It
  also returns early without waiting for what it has started; `BridgeRun.LeftRunningIff` says exactly when.
- `pkg/enclave/handshake/enclave_setup.go:45-46` takes the port of the handshake as an argument, while the enclave's
  watchdog always dials the default one (`pkg/enclave/handshake/enclave_setup.go:150-152`): on another port no
  heartbeat would reach the bridge. The model has one port.
- Waiting for the setup signal never reports the error of the read that waited for it: it is overwritten
  (`pkg/enclave/handshake/enclave_setup.go:126-131`). And an error of an earlier handshake on the same object
  is not cleared, which is the `before` in `HandshakeSetup.SetupSucceedsIffAck`.

## Model

| member | source | states |
|---|---|---|
| Framing.ReadBytes | pkg/enclave/enclave.go:107-145 | one uncancelled call returns the next frame of the chunks that are left, and an error exactly when its data is not a frame |
| Framing.CallsAreTheFold | pkg/enclave/enclave.go:107-119 | successive calls with a fresh reader each are one fold over the chunks, dropping each call's excess |
| Framing.FreshReadersSplitCutStream | pkg/enclave/enclave.go:107-119 | for every chunking the frames are those of the stream with each chunk truncated past its first delimiter |
| Framing.FramesAndSpillsRebuildStream | pkg/enclave/enclave.go:107-119 | frames, dropped bytes and the unfinished call, in order, are the stream |
| Framing.LostNothingIffClean | pkg/enclave/enclave.go:109-119 | nothing is dropped if and only if no chunk carries bytes past a delimiter |
| Framing.MessagesSurviveIffClean | pkg/enclave/enclave.go:107-119 | for all newline-free messages and all chunkings: the calls return the messages in order if and only if no chunk carries bytes past a delimiter |
| Framing.AckFirst | cmd/enclave-bridge/bridge.go:72-82 | on a stream that opens with the ACK, whatever follows it, the first call returns exactly the ACK |
| Heartbeats.AcceptedIff | pkg/watchdog/watchdog.go:135-141 | a frame is accepted if and only if it is the heartbeat, or the ID is nil and the length is wrong |
| Heartbeats.FirstFrame | pkg/watchdog/watchdog.go:128-136 | the first frame is the same for every chunking |
| Heartbeats.FirstBeatAcceptedIff | pkg/watchdog/watchdog.go:118-144 | over any chunking of heartbeats, the first frame read is accepted if and only if the ID has no byte 0x0A |
| Heartbeats.FirstBeatIsAckIff | cmd/enclave-bridge/bridge.go:69-82 | a heartbeat stream opens like a handshake if and only if the ID begins with the two bytes of the ACK |
| Heartbeats.BeatsAllAcceptedIff | pkg/watchdog/watchdog.go:118-144 | for every newline-free ID and chunking, all frames are accepted if and only if every chunk with a delimiter ends in one; and how many resets that makes |
| CancellableIo.WorkerNeverStuck | pkg/enclave/enclave.go:30-132 | in the read and write helpers, at every reachable state of both goroutines and of cancellation: no send on a closed channel, no double close, no blocking send |
| CancellableIo.EveryMoveDecreases | pkg/enclave/enclave.go:111-144 | a measure decreases at every step |
| CancellableIo.RunsAreBounded | pkg/enclave/enclave.go:111-144 | every run has at most nine steps |
| CancellableIo.NobodyWaitsForever | pkg/enclave/enclave.go:134-144 | once the I/O has returned, a state where neither goroutine can move has both finished; the second receive never waits on I/O |
| CancellableIo.Results | pkg/enclave/enclave.go:30-145 | for all three helpers, the exact set of results, each reachable: what the I/O returned, or the context's error, or the zero pair; without cancellation only the first |
| CancellableIo.NothingMeansSkipped | pkg/enclave/enclave.go:121-126 | an empty result without an error comes only from a worker that found the context done |
| CancellableIo.CutIsSafeWithoutCancellation | pkg/watchdog/watchdog.go:129-136 | cutting the last byte off data without an error is safe in every run if and only if the context is never cancelled |
| CancellableIo.AckOnlyWithoutError | pkg/enclave/handshake/enclave_setup.go:125-131 | data equal to the ACK never comes with an error |
| Watchdog.NewWatchdog | pkg/watchdog/watchdog.go:39-49 | the nil ID is refused; the ticker needs a positive interval; what is made has the settings |
| Watchdog.Watchdog.HandleConn | pkg/watchdog/watchdog.go:118-144 | over the frames of any chunks: a mismatch, with the ID it carries, is reported exactly when a frame other than the heartbeat is read before the context is found done; the panic is exactly a read that then gives nothing; the deadline is an interval after the last heartbeat accepted before that, and unmoved by anything else |
| Watchdog.VerdictIsAboutFrames | pkg/watchdog/watchdog.go:128-143 | the loop accepts the leading frames that are the heartbeat itself and reports the first that is not |
| Watchdog.OutcomeIsSound | pkg/watchdog/watchdog.go:104-144 | over any number of connections: nil only after cancellation, a mismatch only after a foreign frame was read, at most one mismatch received |
| Watchdog.TimeoutMeansSilence | pkg/watchdog/watchdog.go:104-111 | a timeout means that an interval had passed since the start and since every accepted frame on any connection |
| Watchdog.TimesOutIff | pkg/watchdog/watchdog.go:104-143 | in every run the event loop can time out exactly when an interval has passed since the last heartbeat on any connection, or the start before the first; an interval in which nothing happens always suffices |
| Watchdog.MismatchTearsDown | pkg/watchdog/watchdog.go:104-141 | in every run, until the event loop has returned it can receive a report exactly when a frame other than the heartbeat has been read; what it receives is the ID one of them carries, and ends it; that connection is read no more; and it can stop on the context exactly when that is done |
| Watchdog.AckIsForeign | cmd/enclave-bridge/bridge.go:69-82 | the ACK of a restarted enclave is foreign to every watchdog that can be made |
| WatchdogTiming.NeverTimesOutIff | pkg/watchdog/watchdog.go:104-169 | no run of any length times out if and only if connect + delay < interval - interval / 2 |
| Utf8.RoundTrip | pkg/config/settings.go:85-89 | decoding an encoded text gives it back |
| Utf8.PlainIff | pkg/config/settings.go:85-89 | the encoding has a byte 0x0A if and only if the text has a newline |
| Json.RoundTrip | pkg/config/settings.go:85-89 | parsing any printed value gives it back, whatever follows it that does not continue a number |
| Json.PrintNoNewline | pkg/config/settings.go:85-89 | no printed value contains a newline |
| Json.FrameRoundTrip | cmd/enclave-bridge/bridge.go:97-114 | a printed value is one frame, delimiter included, and reads back as itself |
| JsonEnds.JsonFrameEnds | cmd/enclave-bridge/bridge.go:109-117 | a frame with a text of a grammar that takes in all of RFC 8259 has no control character but white space before its delimiter; what the parser accepts is such a frame |
| ShortSettings.ShortFrameHasNoId | cmd/enclave-bridge/bridge.go:109-117 | settings read from a frame of fewer than 36 bytes name no enclave |
| Settings.IdRoundTrip | pkg/config/settings.go:29-34 | the textual form of an ID reads back as its 16 bytes |
| Settings.ConfigRoundTrip | pkg/enclave/handshake/enclave_setup.go:113-118 | for all settings: one frame, from which the bridge gets the same settings back |
| Environment.SplitIsAtFirst | pkg/config/settings.go:71-84 | an entry with an equals sign is split at its first one and sets that key to that value unless the pattern matches the key; without one it sets nothing |
| Environment.LaterEntriesWin | pkg/config/settings.go:70-84 | the map has exactly the keys that some entry `key=value` assigns to and the pattern does not match, each with the value of the last such entry |
| Environment.Marshal | pkg/config/settings.go:85-89 | the text of any map is newline-free and parses back to that map |
| Environment.SerializeEnvironment | pkg/config/settings.go:56-90 | for all entries: fails exactly on a bad pattern, and otherwise is one frame that parses to the map of the entries |
| PairingTheorems.KeepInv | cmd/enclave-bridge/bridge.go:40-137 | what every move of every process keeps |
| PairingTheorems.OnePartnerEach | cmd/enclave-bridge/bridge.go:52-92 | no enclave configures two bridges and no bridge is configured twice |
| PairingTheorems.ResetsOnlyOnItsHeartbeat | pkg/watchdog/watchdog.go:128-143 | a bridge's deadline moves exactly on a complete frame equal to the heartbeat of its own settings' ID |
| PairingTheorems.OnlyItsEnclaveKeepsABridgeAlive | pkg/watchdog/watchdog.go:118-144 | whatever reset a bridge's deadline was sent by an enclave with the ID of the bridge's settings, which it read from a handshake; if the ID was drawn once, by the incarnation that configured it |
| PairingTheorems.OnlyItsBridgeKeepsAnEnclaveAlive | pkg/watchdog/watchdog.go:74-101 | whatever reset an enclave's deadline was sent by a bridge with its ID; if the ID was drawn once, by the bridge it configured |
| PairingTheorems.ForeignFrameTearsDown | pkg/watchdog/watchdog.go:112-141 | after any other frame in a bridge's watchdog, in every later state the bridge is down or its event loop can receive the report, which takes it down |
| PairingTeardown.RestartedEnclaveTearsDown | pkg/watchdog/watchdog.go:54-69 | once a restarted enclave has written its ACK to a bridge that watches, and unless the bridge ends by itself: the ACK is reported and the bridge is down or can be taken down, or the watchdog can take another of the at most so many steps it takes |
| PairingTeardown.ReportGoesOn | pkg/watchdog/watchdog.go:58-69 | until there is a report, the watchdog can accept the connection or read from it |
| PairingTheorems.RestartedEnclaveIsAMismatch | pkg/watchdog/watchdog.go:128-141 | a handshake that lands in a watchdog resets nothing; its first frame is the ACK, which ends that read loop and is reported |
| PairingTheorems.FreshBridgeRefusesHeartbeats | cmd/enclave-bridge/bridge.go:69-82 | for every ID: a bridge that awaits its handshake goes beyond the first frame of heartbeats if and only if the ID begins with the ACK, and even then comes to no settings with a watchdog |
| PairingTheorems.HandshakeIsLockStep | pkg/enclave/handshake/enclave_setup.go:78-134 | frames go ACK, environment, settings, ACK, at most one is in flight over both directions, and nothing is dropped, for any chunking |
| PairingTheorems.HandshakeDelivers | cmd/enclave-bridge/bridge.go:95-117 | the bridge has exactly the enclave's settings, the enclave exactly the host's environment |
| PairingTheorems.SetupSignalIsSound | cmd/enclave-bridge/bridge.go:152-179 | an enclave told of success by the bridge that took its handshake was told by one with its settings, all of whose members had been started; a watchdog can tell it instead only if its ID says an ACK |
| PairingPipes.PlainNeverSaysAck | pkg/watchdog/watchdog.go:118-127 | an ID without the byte 0x0A never says an ACK |
| AckInBeats.SaysAckIff | pkg/watchdog/watchdog.go:118-127 | there are chunks of heartbeats in which two reads return what may be JSON and then the ACK, if and only if the ID says so |
| PairingTheorems.WatchdogWaitsForHandshake | pkg/enclave/handshake/enclave_setup.go:132-161 | no watchdog connection is dialled while a handshake connection of that enclave is open |
| PairingTheorems.OneOpenHandshake | pkg/enclave/handshake/enclave_setup.go:59-95 | a live enclave has at most one open handshake connection, over any retries |
| PairingProgress.HandshakeGoesOn | pkg/enclave/handshake/enclave_setup.go:78-134 | while both ends are there one of them can take its next step: no deadlock |
| PairingProgress.HandshakeEnds | cmd/enclave-bridge/bridge.go:95-179 | every such step leaves less to do, and never less than nothing |
| PairingProgress.HandshakeEndsWell | cmd/enclave-bridge/bridge.go:141-186 | in every run in which neither end goes away, a handshake has no more than so many steps of its own; once it is over the enclave has the ACK if and only if a run of the bridge with those settings gets that far, and the bridge has ended itself if and only if the level is unknown, the ID nil or the interval not positive |
| PairingProgress.OthersDoNotDisturb | cmd/enclave-bridge/bridge.go:52-60 | no move of any other process or connection changes the handshake or what is left of it |
| PairingStarts.APairCanStart | cmd/enclave-bridge/bridge.go:40-186 | whenever the port is free, a new enclave and a new bridge can, by their own steps alone, get to an enclave with its ACK and a bridge that watches with exactly its settings, for every such settings with a known level, an ID and an interval |
| PairingStarts.KeepEachOtherAlive | pkg/watchdog/watchdog.go:54-143 | with a plain ID and an interval of at least 2, the two can always reset each other's watchdogs over a new connection |
| PairingStarts.GivingUp | pkg/enclave/handshake/enclave_setup.go:59-161 | an enclave that gives up its connection can dial again exactly before it has its environment; its watchdog can dial exactly after its settings are written, and if it can be made |
| PairingBeats.HeartbeatGetsThrough | pkg/watchdog/watchdog.go:118-143 | on a connection read up to there, the next heartbeat of the bridge's own plain ID resets its watchdog exactly once, however it is cut up, and leaves the connection ready for the next |
| HandshakeSetup.BridgeHandshake.SetupConnection | pkg/enclave/handshake/enclave_setup.go:78-95 | an attempt leaves its connection open exactly when it succeeds |
| HandshakeSetup.BridgeHandshake.StartHandshake | pkg/enclave/handshake/enclave_setup.go:46-75 | over any number of retries: none open before each, exactly one on leaving the loop, none after a failed parse; and which environment results |
| HandshakeSetup.BridgeHandshake.AwaitAck | pkg/enclave/handshake/enclave_setup.go:123-134 | the connection is closed, the channel is closed, and what error is kept |
| HandshakeSetup.BridgeHandshake.FinishHandshake | pkg/enclave/handshake/enclave_setup.go:107-122 | what is written is one frame that parses to exactly the settings given; a failed write, or no connection, leaves everything as it was |
| HandshakeSetup.BridgeHandshake.WaitForBridgeSetup | pkg/enclave/handshake/enclave_setup.go:139-143 | a caller is released exactly when the read for the last ACK is over; it is told of no error only if that read returned the ACK, and of a missing ACK whenever it did not |
| HandshakeSetup.Handshake | pkg/enclave/handshake/enclave_setup.go:46-143 | a whole handshake leaves its connection open if and only if it started and its settings could not be written; the waiting caller is released if and only if it started and they were, when the ACK and one frame of the settings have been said |
| HandshakeSetup.SetupSucceedsIffAck | pkg/enclave/handshake/enclave_setup.go:123-143 | for every result of the read, cancelled or not: nil if and only if it was the ACK and there was no error before, and every failure is a missing ACK |
| HandshakeSetup.UncancelledSetupIff | pkg/enclave/handshake/enclave_setup.go:139-143 | without cancellation: nil if and only if the next frame of the stream is the ACK |
| HandshakeSetup.LoopLeavesWithFrameIff | pkg/enclave/handshake/enclave_setup.go:59-73 | for every outcome of the read and any attempts: what the retry loop leaves with is a frame in every run if and only if the context is not cancelled; otherwise it can be nothing, which does not parse |
| BridgeSetup.Host.CreateBridge | cmd/enclave-bridge/bridge.go:40-93 | the listener and the connection are open afterwards exactly when a bridge was created; without the ACK nothing has been said; which error otherwise |
| BridgeSetup.Host.CompleteHandshake | cmd/enclave-bridge/bridge.go:95-136 | what is said is one frame that parses to the environment, whatever becomes of the settings |
| BridgeSetup.CreatedOnlyFromFrames | cmd/enclave-bridge/bridge.go:69-117 | for every result of the two reads, cancelled or not, a bridge comes only from the ACK and a frame of settings |
| BridgeRun.ServerMembers | cmd/enclave-bridge/bridge.go:152-158 | each server tunnel has one member that runs its proxy and one that closes it, in order |
| BridgeRun.Bridge.Run | cmd/enclave-bridge/bridge.go:141-186 | which settings and outcomes end a run how; the ACK goes out when every configured member has been started and not before; what is left started; and for every run of the group of just those members, its error is that of the first to fail in it, none exactly when all returned none |
| BridgeRun.LeftRunningIff | cmd/enclave-bridge/bridge.go:146-179 | exactly when a run that returns an error leaves members behind that nothing waits for |
| BridgeRun.TeardownStep | cmd/enclave-bridge/bridge.go:209-238 | once the group's context is done, every step decreases a measure |
| BridgeRun.TeardownCompletes | cmd/enclave-bridge/bridge.go:181-238 | for any number of tunnels, once the context is done the run is bounded, and when nothing is left to do every member has returned but for proxies closed before they ran; all of them, if all proxies ran when it was done |
| BridgeRun.FirstFailureIsReported | cmd/enclave-bridge/bridge.go:181-184 | in every run the group has the error of the first member to fail, if any has; when all have returned it has none exactly when all returned none, and then it was the caller who ended it |
| ClientTunnel.PayloadIsConserved | pkg/tunnel/client_tunnel.go:51-94 | for any chunking and interleaving: what the target received is what the caller wrote, up to the bytes under way |
| ClientTunnel.ReplyIsConservedPastTheAck | pkg/client/client.go:84-95 | what the target wrote is what was read past the ACK, then what the caller heard, then the bytes under way |
| ClientTunnel.ReplyIsLostIff | pkg/client/client.go:88-93 | bytes of the reply are lost if and only if the chunk that completes the ACK carries bytes past it; those are the bytes lost, for good |
| ClientTunnel.PoliteReplyIsAPrefix | pkg/client/client.go:84-95 | a target that speaks only after it has heard is heard from its first byte |
| ClientTunnel.EverythingArrives | pkg/tunnel/client_tunnel.go:51-105 | from any state, if nobody says anything new and nothing fails, there are only so many steps left; and none is left exactly when the caller has its connection, the target all that the caller wrote, and the caller all that the target wrote past the ACK |
| ClientTunnel.RightTargetIff | pkg/tunnel/client_tunnel.go:54-61 | the tunnel connects to the address it was given if and only if that has no byte 0x0A |
| BufferPool.CopyBuffer | pkg/tunnel/server_tunnel.go:71-79 | a copy moves all there is, or as much as can be written, in order, and returns how much; it meets no error exactly when that is all and the source ended without one |
| BufferPool.NoBufferIsShared | pkg/tunnel/server_tunnel.go:71-90 | for any number of pumps and any interleaving, no buffer is in two hands, nor in a hand and the pool |
| BufferPool.OutputIsOwnInput | pkg/tunnel/client_tunnel.go:86-105 | every output is a prefix of its own input, and all of it once the pump has ended without a failure of its own |
| BufferPool.EveryBufferIsReturned | pkg/tunnel/server_tunnel.go:71-90 | a finished pump has returned its buffer; when all are finished every buffer is accounted for |
| BufferPool.PumpsFinish | pkg/tunnel/server_tunnel.go:71-90 | a pump whose source has ended can always take a step that is no failure, each step leaves it less to do, and no other pump's step leaves it more |
| AttestationCache.CacheRefinesNoCache | pkg/wellknown/wellknown.go:92-153 | for any interleaving of any number of requests, every response is one the endpoint without a cache could give, and a cached one was valid at the second clock reading |
| AttestationCache.CacheHoldsNoNonce | pkg/wellknown/wellknown.go:116-141 | the stored pointer is nil or a response to a request without a nonce |
| AttestationCache.NonceOnlyClears | pkg/wellknown/wellknown.go:109-141 | no move of a request with a nonce changes the cache except to clear it, and it is nowhere on the way to being served from it |
| AttestationCache.CacheIsUsedIff | pkg/wellknown/wellknown.go:109-114 | a request without a nonce that finds a response, is served it if and only if that has a certificate, had begun to be valid at one reading of the clock, was not over at the other, and is for the request's certificate, whatever the others do between any of its steps |
| AttestationCache.StaleIsCleared | pkg/wellknown/wellknown.go:116-119 | a request that goes on clears the response it finds if and only if that fails the same check, whatever the others do in between |
| AttestationCache.OwnResponse | pkg/wellknown/wellknown.go:121-144 | a generated response is for the request's own nonce and certificate; without a nonce it is what the cache holds once stored, with one the cache never sees it |
| AttestationCache.Controller.GetNSMAttestations | pkg/wellknown/wellknown.go:92-144 | one request with the cache to itself: which reply, and what is left in the cache |
| Renewal.RenewalIsWithinLifetime | pkg/certs/acme/acme.go:207-211 | for every positive lifetime, saturated or not, the renewal instant is whole seconds into it and before its end |
| Renewal.RenewedAfterTwoThirdsIff | pkg/certs/acme/acme.go:207-211 | a lifetime of L seconds is renewed after floor(2L/3) seconds if and only if L is at most 9223372037 |
| Renewal.CertManager.SwitchCertificate | pkg/certs/acme/acme.go:219-244 | all three fields change together, or none does when the new certificate does not parse |
| Renewal.CertManager.ObtainCertificate | pkg/certs/acme/acme.go:151-163 | succeeds exactly when the answer comes and parses |
| Renewal.CertManager.RenewCertificate | pkg/certs/acme/acme.go:166-173 | succeeds exactly when the answer comes and parses; otherwise nothing changes |
| Renewal.CertManager.NeedsRenewal | pkg/certs/acme/acme.go:215-217 | due strictly after the renewal instant of the certificate that is installed |
| Renewal.CertManager.RunRenewal | pkg/certs/acme/acme.go:250-271 | a run of ticks leaves installed what LastRenewalWins says of its history, has made one attempt for each tick past the renewal instant of the certificate then installed, and takes nothing from after the cancellation |
| Renewal.LastRenewalWins | pkg/certs/acme/acme.go:250-260 | what is installed at the end is the answer to the last tick before cancellation that came after the renewal instant of the certificate then installed and whose answer parses; or, without one, what there was |
| Renewal.FailingRunAttempts | pkg/certs/acme/acme.go:250-270 | a failing run makes exactly ceil((x + R) / 15 s) - 1 attempts before expiry, x the phase of the tick, so at least ceil(R / 15 s) - 1, which is attained |
| Renewal.SwitchIsAtomic | pkg/certs/acme/acme.go:176-244 | whenever no switch is under way the three fields are of one version; what readers see, in order, never goes back |
| Renewal.SwitchGoesThrough | pkg/certs/acme/acme.go:237-242 | a version that has been parsed can always be switched to, as soon as the readers let go of the lock, and is then what all three fields hold |

## Left out

- Pairing.Apply: a write is whole or does not happen; an enclave that cannot write its settings ends with its connection open, as one that dies does.
- PairingProgress.HandshakeEnds: the bridge's ten-second read deadlines are among the ways a bridge may die at any time; that a handshake is fast enough is not claimed.
- HandshakeSetup.BridgeHandshake.StartHandshake: the loop is endless in the source; the model's attempts are those made so far, and the back-off between them is left out.
- BridgeSetup.Host.CompleteHandshake: a write that fails is taken to have written nothing.
- BridgeRun.TeardownCompletes: tcpproxy is not part of this model; whether closing a proxy that does not run yet has an effect is left open, so both are moves, and a failure to close is taken to have closed.
- Pairing.Enabled: with an interval of 1 the first watchdog connection panics where its heartbeat ticker is made; no heartbeat is written then, and the panic is among the ways a process may die.
- WatchdogTiming.NeverTimesOutIff: one peer, handled within the delay; the client's reconnection back-off is not timed.
- Environment.Marshal: the encoder sorts the keys; here any order is allowed, which the round trip does not depend on. Strings that are not valid UTF-8 are not covered.
- Json.RoundTrip: the grammar is what the two sides print: no white space between tokens, no fractions, no booleans, and no surrogate escapes. An empty list prints as `null`, as a nil slice does.
- Renewal.RenewedAfterTwoThirdsIff: exact rational arithmetic in place of floating point.
- AttestationCache.CacheRefinesNoCache: the attestation document is taken to echo the nonce and user data it was requested with; what the certificate bytes encode is not claimed.
- In `Pairing` the enclave goes on after any environment frame that could be JSON, a necessary condition for parsing (`JsonEnds.JsonFrameEnds`), so that more runs are covered than the program has; a frame that is not valid UTF-8 is not among those shown to meet it.
- A reader's buffer of 4096 bytes, and an empty read without an error, do not occur: a chunk is whatever one read returns.
- Which log levels a logger knows: each bridge has a set of them. ConfigFromEnvMap, setting a level, the stdout tunnel and port parsing.
- One call of FinishHandshakeAndWait for each enclave.
- The accept loop of StartServerSide, which goes on after its listener is closed, and the goroutines a returned watchdog leaves behind.
- VSOCK, TCP and TLS; `io.CopyBuffer`'s ways around the buffer it is given; TLS-ALPN challenges; ACME exchanges; cryptography.
