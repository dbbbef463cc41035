# TunGo session machinery, modelled and proved

TunGo is a VPN: a client and a server exchange IP packets over UDP or TCP under
ChaCha20-Poly1305 keys that a periodic rekey replaces without stopping traffic. This project
models the part of it that has to be right for that to work: the rekey protocol with its two
coordinators, phases and crypto back ends, the nonces and the replay window, the server's
session repository, the TCP framing and the allocation of tunnel addresses.

The sources are imperative, so the operations are classes with fields and methods. Each method
is proved against a function on values (`Model()` gives the value of an object), and the
properties over whole runs are lemmas about those functions. The primitives (X25519, HKDF,
Noise IK, the AEAD) are parameters; `Exchange.Lawful` is all that is assumed of them, except where
`TcpAnswers.Tells` or `DerivedKeys.Separates` is named: Diffie-Hellman commutes, and a Noise IK finish that matches its respond yields the responder's
keys (section 7.5 of the Noise Protocol Framework, revision 34).

## How it is laid out

| files | what they model | source |
|---|---|---|
| `Exchange`, `Coordinators`, `Epochs` | the key exchange, `Handle` and `HandleRekeyAck`, the phases, both back ends, as functions on values | `protocol/rekey`, `protocol/chacha20/rekey`, `protocol/chacha20/udp`, `protocol/chacha20/tcp` |
| `UdpEndpoints`, `UdpProtocol`, `UdpTheorems` | two ends over a channel that loses, reorders and duplicates; each step is one call of one packet loop, so calls of different loops interleave freely | `server/udp/server.go`, `client/udp/transport.go`, `client/udp/tun.go` |
| `UdpNumbers`, `UdpReceipts`, `UdpSettles`, `UdpRekeys` | packet numbers, at-most-once receipt, recovery and completed rekeys over the same runs | the same, and `protocol/chacha20/udp` |
| `TcpEndpoints`, `TcpChannels`, `TcpProtocol`, `TcpTheorems`, `TcpAnswers`, `TcpKeys`, `TcpMistakes`, `TcpGuards`, `TcpResend` | the same protocol over reliable first-in-first-out streams: what runs keep in which the client acts on answers only, what every run keeps, what the others lose, which runs are safe, and a run that is not | `server/tcp/server.go`, `client/tcp/transport.go`, `client/tcp/tun.go` |
| `DerivedKeys`, `Schedules`, `Exhaustion`, `Outcomes` | what derived keys are made of, when a client asks, how a session runs out of epochs, and what each operation does with any input | the same |
| `ServerTransactions`, `Phases`, `NonceRuns` | the server coordinator, the phase machine and one crypto instance, under every sequence of calls | `protocol/rekey/rekey.go`, `protocol/chacha20` |
| `Nonces`, `Bits`, `ReplayWindow`, `SlidingWindow` | the 96-bit nonce and the 1024-bit sliding bitmap | `protocol/chacha20/internal/core/nonce.go`, `protocol/chacha20/udp/sliding_window.go` |
| `UdpSessions`, `UdpCryptos`, `TcpCryptos`, `Managers`, `StateMachines`, `RekeyCoordinators`, `PacketLoops` | the classes, from sessions up to the packet handlers | `protocol`, `server`, `client` |
| `Netip`, `Repository` | addresses and prefixes; four indexes over one set of live peers | `server/session` |
| `Framing` | length-prefixed frames over a stream that splits as it likes | `transport/tcp/framing.go` |
| `Addressing`, `Validation` | client and server addresses; when a configuration is valid | `config/addressing`, `config/server`, `config/settings` |

All source paths are under `src/internal`. Inductions are written out: `{:induction false}` marks the
lemmas for which Dafny would otherwise set up an induction hypothesis of its own.

## What holds, and where it stops holding

- UDP, every run: keys agree, epochs stay within one of each other, each end can open what the
  other sends, no acknowledgement fails, the send epoch never goes back, and from every
  reachable state at most 30 further steps bring both ends to rest at one epoch under equal keys;
  from rest at most 22 complete a rekey (`RekeyCompletes`), unless the last epoch is allocated, and then the
  server's notice makes the client reconnect (`UdpEnds`).
- No key and nonce serve both directions, in any run of either transport, where the derivation keeps its labels apart and, under
  one secret and label, the keys it is given (`Separates`, asked only of keys the run installs: no function into 32 bytes can do
  both for all keys).
- TCP: with no init resent, the next frame of each stream is always found, opened and in step
  with the receiver's counter. With one init resent this is false, and `TcpResend` gives the
  run: the server answers the copy under the epoch it has already promoted, the client takes
  that answer for the answer to its next exchange and moves to an epoch the server does not
  have, and the server closes the session on the first frame it sends there. The condition is which
  ack the client acts on. Its own check sees the kind, the size and the carrier epoch; a run is answered when
  every ack that passes is the one the server recorded for that epoch (`Answered`). Answered runs are
  faithful: no ack is mistaken, that is, none makes the client give its exchange up without deriving the server's next keys
  (`AnsweredIsFaithful`). All results on delivery and on the two ends hold in every faithful run. Where answers can be told apart by
  the keys they yield (`Tells`, asked only of bodies that `Respond` produces), the runs whose
  exchanges are settled by their recorded answers are exactly the faithful ones (`FaithfulIffSettled`). `TcpMistakes`
  shows that acting on an ack gives both ends a usable next epoch if and only if it is not mistaken, and, in every
  continuation of a mistake, what is lost (`MistakeLasts`). `GuardedIsFaithful` and `NoResendIsGuarded`
  show that runs that open no exchange over a stale init or answer, and so runs without a resend, are faithful.
- `Framing`: over a stream that splits writes and reads in any way, as long as it does not fail and takes something of
  each write, what successive Writes put on it successive Reads return, payload by payload (`RoundTrip`).
- The replay window keeps four high counter halves. `ReplayIff`: it would let an accepted counter
  through again if and only if more than four have been accepted. `FifthHighHalfAdmitsReplay` is such a replay.
- Client addresses lie in their subnets and are all separate if and only if each allocated IPv4
  address finds room after its subnet's own host part (`AddressSeparation`); masked subnets always
  leave room. `Validate` accepts subnets that do not, and `UnmaskedCollides` is a valid configuration
  in which two clients get one address.
- A route ID leads to its live peer as long as no peer was added with a route in use; `CollidingRoutes`
  shows a live peer that is no longer found after such a pair.
- `Repository.Add` keeps the indexes consistent exactly when no live peer has the same internal
  address. A caller that does not delete the earlier peer first leaves it live and unindexed.

Where the documentation in `docs/TunGo/docs/Architecture/Protocol/handshake-and-rekey.md` and the code
disagree, the model follows the code: there is no five-second abort of a staged epoch and no state
between idle and staged (the phases are idle, staged and retiring); the TCP server moves its send
epoch as soon as its answer has been written, not on the client's first packet under the new epoch
(`PromotesOnWrite`, `PromotedBeforeProof`); and
the TCP previous session goes when the retirement condition holds, not on a first decryption as such.

## Model

| member | source | states |
|---|---|---|
| Exchange.ExchangeAgrees | src/internal/protocol/rekey/rekey.go:140-187 | A client that finishes with the server's answer, both starting from equal current keys, derives exactly the key pair the server derived, at full size, for version 1 and version 2 |
| DerivedKeys.AnswerDirections | src/internal/protocol/rekey/rekey.go:140-173 | The client-to-server and the server-to-client key of an answer differ, where the derivation keeps its two labels apart and a handshake's two outputs differ |
| DerivedKeys.AnswerChains | src/internal/protocol/rekey/rekey.go:156-163 | Over version 1 a change of either current key changes the new key of that direction, and nothing but the current key of its own direction does, for equal draws and requests |
| DerivedKeys.FinishChains | src/internal/protocol/rekey/initiator.go:171-183 | The same at the client |
| DerivedKeys.FinishUses | src/internal/protocol/rekey/initiator.go:168-220 | An answer finishes to the server's keys for version 2 whatever the client's current keys have become, for version 1 whatever they were at the start |
| DerivedKeys.InitChains | src/internal/protocol/rekey/rekey.go:175-187 | Over version 2, init bodies of one draw are equal exactly when both current keys are |
| DerivedKeys.UdpDirections | src/internal/protocol/rekey/rekey.go:140-173 | In every UDP run the two directions of each installed epoch have different keys, at both ends |
| DerivedKeys.TcpDirections | src/internal/protocol/rekey/initiator.go:147-198 | In every TCP run, mistakes or not, so do they, also across the two ends |
| DerivedKeys.UdpStretched | src/internal/protocol/rekey/rekey.go:156-163 | In every UDP run over version 1 there is for each installed epoch one secret from which both keys are derived, each from the key before it in its own direction under its own label |
| DerivedKeys.TcpStretched | src/internal/protocol/rekey/initiator.go:171-183 | The same in every TCP run, at both ends |
| DerivedKeys.UdpNoSharedNonce | src/internal/protocol/chacha20/udp/session.go:76-108 | In every UDP run no datagram of one direction has both the key and the nonce of one of the other |
| DerivedKeys.TcpNoSharedKey | src/internal/protocol/chacha20/tcp/session.go:82-100 | In every TCP run no frame of one direction has both the key and the epoch of one of the other |
| Transcripts.AcceptedInit | src/internal/protocol/rekey/rekey.go:84-110 | A new init that passes the server's checks is the client's pending one, carried by the epoch both ends are on, and started from the server's own current keys |
| Transcripts.AcceptedAck | src/internal/protocol/rekey/initiator.go:147-198 | From the answer recorded for its pending exchange the client derives the keys the server staged as the next epoch |
| Transcripts.LastEpoch | src/internal/protocol/rekey/rekey.go:110-138 | The server remembers a transaction exactly when it has staged an epoch, and that transaction carries the newest epoch and was carried by the one before |
| UdpTheorems.KeyAgreement | src/internal/server/udp/server.go:156-172 | In every UDP run, an epoch number installed at both ends has the same client-to-server and server-to-client keys at both |
| UdpTheorems.RingsAgree | src/internal/protocol/chacha20/udp/epoch_ring.go:56-79 | Whenever both rings hold a slot for an epoch, each end's send key is the other's receive key |
| UdpTheorems.EpochsWithinOne | src/internal/protocol/chacha20/udp/crypto.go:103-144 | server send epoch <= client send epoch <= server newest <= server send epoch + 1, the client's newest is its send epoch, and each send epoch is still in the other end's four-slot ring |
| UdpTheorems.PendingMeansIdle | src/internal/protocol/rekey/initiator.go:89-104 | In every UDP run a pending init implies the idle phase and a send epoch equal to the recorded carrier |
| UdpTheorems.CarrierNeverChanges | src/internal/protocol/rekey/initiator.go:90-93 | The "pending rekey carrier epoch changed" refusal cannot happen in any UDP run, whatever the clock, the random source and the buffer |
| UdpTheorems.OneInitPerEpoch | src/internal/protocol/rekey/initiator.go:89-119 | Two inits pending at any two moments of one UDP run under the same carrier epoch are the same exchange with the same key |
| UdpTheorems.AcksNeverFail | src/internal/protocol/rekey/initiator.go:147-198 | Any acknowledgement the client reads in a UDP run is either ignored with nothing changed, or moves it to the server's newest epoch under the server's keys; it never returns an error |
| UdpTheorems.RunGrows | src/internal/protocol/rekey/rekey.go:110-138 | Continuing a run never rewrites what was installed: keys and exchanges of earlier epochs stay as they were |
| UdpTheorems.SendEpochNeverDecreases | docs/TunGo/docs/Architecture/Protocol/handshake-and-rekey.md:228-232 | However a UDP run goes on, neither end returns to sending under an earlier epoch |
| UdpTheorems.ServerStaysAhead | src/internal/protocol/chacha20/rekey/state_machine.go:129-137 | No step of any loop lowers the server's send epoch |
| UdpProtocol.RunInv | src/internal/server/udp/server.go:145-258 | Every UDP run keeps the protocol invariant: shaped ends, epochs within one, observations, sound datagrams, tasks, exchanges and transactions |
| UdpProtocol.NextInv | src/internal/client/udp/transport.go:89-160 | Each single call of each packet loop keeps that invariant, in any interleaving |
| UdpProtocol.BuildNeverRefused | src/internal/protocol/rekey/initiator.go:64-119 | In a reachable UDP state building an init is never refused for a changed carrier |
| UdpProtocol.ServerHandleInv | src/internal/server/udp/server.go:219-244 | Handling an authenticated service packet, new, repeated or malformed, keeps the invariant |
| UdpProtocol.ClientAckInv | src/internal/protocol/rekey/initiator.go:147-226 | Handling an acknowledgement keeps the invariant, whether it completes the exchange or is ignored |
| UdpEndpoints.ResolveRing | src/internal/protocol/chacha20/udp/epoch_ring.go:56-65 | In a ring of the newest epochs an epoch resolves exactly when it is among the last four allocated, and to its own slot |
| UdpEndpoints.StageRing | src/internal/protocol/chacha20/udp/crypto.go:103-137 | Staging from the newest send epoch always succeeds with the next number and leaves the newest four epochs, each with its own keys |
| UdpEndpoints.StartShaped | src/internal/protocol/chacha20/rekey/state_machine.go:100-124 | StartRekey succeeds exactly for full-size keys when idle and below epoch 65000, with the next epoch staged and the send epoch unchanged; otherwise it names the refusal, wrong sizes first, and changes nothing |
| UdpEndpoints.ActivateShaped | src/internal/protocol/chacha20/rekey/state_machine.go:129-147 | Activation moves the send epoch exactly when the staged epoch is named, and ends idle if the peer was already seen there, retiring if not |
| UdpEndpoints.ObserveShaped | src/internal/protocol/chacha20/rekey/state_machine.go:152-157 | Observation keeps the highest peer epoch and turns retiring into idle exactly when that epoch has reached the current one |
| UdpReceipts.ReadAtMostOnce | src/internal/protocol/chacha20/udp/session.go:110-138 | In every UDP run, across rekeys and evicted epochs, neither end reads the same epoch and counter twice, while each epoch shows at most four high halves |
| UdpReceipts.ReplayIffReads | src/internal/protocol/chacha20/udp/session.go:110-138 | In every UDP run, under each epoch an end still keeps, some datagram already read would be let through again if and only if that epoch has shown more than four high halves |
| UdpReceipts.ServerSwitchesAfterProof | docs/TunGo/docs/Architecture/Protocol/handshake-and-rekey.md:228-233 | In every UDP run the server's send epoch, once past 0, is one under which it has read an authenticated datagram |
| UdpReceipts.DecryptHeeds | src/internal/protocol/chacha20/udp/crypto.go:76-98 | A successful Decrypt keeps every window in the ring exactly that of all that was read under its own epoch, and up to four high halves accepts only a counter not read before |
| UdpNumbers.RunFresh | src/internal/protocol/chacha20/udp/session.go:76-108 | In every UDP run no datagram is numbered above its sender's counter, and the newest number in every replay window came from the channel |
| UdpSettles.Recoverable | src/internal/protocol/rekey/initiator.go:90-104 | From every reachable connected UDP state, whatever was lost, at most 30 steps of the loops (their own pending calls, one retry, one ping and its pong) bring both ends to the idle phase at one epoch with equal keys |
| UdpSettles.SealedOpens | src/internal/protocol/chacha20/udp/crypto.go:47-98 | A packet newly sealed by one end opens at the other, past whatever its replay window has seen |
| UdpSettles.CatchUp | src/internal/protocol/rekey/rekey.go:89-99 | A client left one epoch behind because an answer was lost gets the remembered answer again by retrying, and reaches the server's newest epoch in at most 11 steps |
| UdpSettles.ConfirmUp | src/internal/protocol/chacha20/rekey/state_machine.go:139-157 | A ping from a client on the newest epoch makes the server activate it, come to idle and answer with a pong the client can open |
| UdpSettles.ConfirmDown | src/internal/protocol/chacha20/rekey/state_machine.go:139-157 | Reading that pong brings the client to idle, so both ends rest at the common epoch |
| UdpRekeys.RekeyCompletes | src/internal/protocol/rekey/initiator.go:64-198 | From every reachable UDP state at rest below the last epoch, with an init the server can answer and has not answered before, at most 22 of the loops' own steps bring both ends to rest at the next epoch under the keys of that answer, over version 1 and version 2 |
| Schedules.NothingBefore | src/internal/protocol/rekey/initiator.go:74-78 | After a due call at any time, refused or not, every call less than an interval later returns nothing and changes nothing |
| Schedules.AsksExactly | src/internal/protocol/rekey/initiator.go:64-144 | Exactly when a call returns an init and which, when it opens an exchange and on which keys and epoch, and when it refuses |
| Schedules.UdpApart | src/internal/protocol/rekey/initiator.go:74-78 | In any UDP run, for any clock, an interval lies between a due build and the next that is due or returns an init; the first comes an interval after the start |
| Schedules.TcpApart | src/internal/protocol/rekey/initiator.go:74-78 | The same in any TCP run |
| Outcomes.AckExactly | src/internal/protocol/rekey/initiator.go:147-226 | A packet that is not a well-formed ack under the pending carrier changes nothing; one that is moves an idle client to the next epoch under the derived keys, or fails with the end unchanged, version 1 keeping the exchange and version 2 dropping it |
| Outcomes.SecondChance | src/internal/protocol/rekey/initiator.go:200-217 | After a failed ack version 1 treats every later one as before; version 2 heeds none and its next due build opens a new exchange |
| Outcomes.LeavesExactly | src/internal/client/udp/transport.go:131-160 | Over either transport the client's control plane ends the connection exactly on the notice, and on a fitting ack whose keys would need an epoch past the last |
| Outcomes.ClientClosesExactly | src/internal/client/tcp/tun.go:66-86 | A TCP client's connection ends exactly when an IP packet cannot be sealed, its next frame does not open, or its control plane says so; a ping or an init that cannot be sealed ends nothing |
| Outcomes.ServerClosesExactly | src/internal/server/tcp/server.go:130-211 | The server's ends exactly when an IP packet or an answer cannot be sealed or the next frame does not open; a pong that cannot be sealed is dropped |
| Exhaustion.RepliesExactly | src/internal/server/udp/server.go:219-244 | For either transport: the notice exactly for a request the server would open but has no epoch for, one new answer while it has one, the same answer to a repeat, a pong to a ping, nothing to anything else |
| Exhaustion.UdpNotice | src/internal/server/udp/server.go:232-239 | In every UDP run the server's turn sends the notice exactly when the datagram opens to a request that would open a transaction, the last epoch is allocated, and the reply can be numbered |
| Exhaustion.TcpNotice | src/internal/server/tcp/server.go:187-194 | The same in every TCP run, mistakes or not |
| Exhaustion.TcpServerCloses | src/internal/server/tcp/server.go:130-211 | In every TCP run the server's turn keeps the session exactly when the frame opens and a reply to a request, if due, can be sealed; a pong that cannot be sealed closes nothing |
| Exhaustion.UdpClientLeaves | src/internal/client/udp/transport.go:89-160 | A UDP client in any state reconnects on an authentic notice, and on no other datagram unless its own epochs are exhausted |
| Exhaustion.TcpClientLeaves | src/internal/client/tcp/transport.go:84-116 | A TCP client in any state ends its connection on an authentic notice or a frame that does not open, and on no other unless its own epochs are exhausted |
| Exhaustion.UdpReconnects | src/internal/client/udp/transport.go:131-160 | In every UDP run a connected client reconnects exactly on an authentic notice |
| Exhaustion.UdpEnds | src/internal/server/udp/server.go:232-239 | At the last epoch of any UDP run a fresh request is answered with the notice, and the client's turn on that very reply reconnects |
| Exhaustion.TcpEnds | src/internal/client/tcp/transport.go:96-100 | In every faithful TCP run a notice that is the client's next frame ends its connection |
| ServerTransactions.OpenedAtMostOnce | src/internal/protocol/rekey/rekey.go:84-138 | Over either back end and any calls with known epochs, each (request, carrier epoch) pair stages at most one epoch; the k-th transaction is carried by epoch k and stages k + 1 |
| ServerTransactions.AnswersComeFromTransactions | src/internal/protocol/rekey/rekey.go:84-138 | Every reply the coordinator gives, first or repeated, is the recorded response and epoch of the one transaction for that request and carrier |
| ServerTransactions.RepeatsAreIdempotent | src/internal/protocol/rekey/rekey.go:84-99 | A request that has a transaction changes nothing when repeated: it returns the identical response and epoch until both its activation and its observation have been called, and nothing afterwards |
| ServerTransactions.OpenedGrows | src/internal/protocol/rekey/rekey.go:110-138 | Later calls never alter an opened transaction |
| ServerTransactions.HandleCases | src/internal/protocol/rekey/rekey.go:65-138 | Handle either leaves the server as it was, replying only from the remembered transaction, or opens one transaction and allocates exactly one epoch, and then only after the previous one was complete |
| ServerTransactions.RunOrdered | src/internal/protocol/rekey/rekey.go:84-138 | In every run all transactions but the last are complete, and the last one's flags say exactly which of the two calls have been made |
| TcpTheorems.UpwardDelivery | src/internal/server/tcp/server.go:130-139 | In every faithful TCP run the next unread frame from the client finds its epoch's receive session with matching key and counter, and opens to its text |
| TcpTheorems.DownwardDelivery | src/internal/client/tcp/transport.go:61-116 | The same for the next unread frame from the server |
| TcpTheorems.ReadingNeverCloses | src/internal/protocol/chacha20/tcp/crypto.go:86-101 | In faithful runs reading a frame closes neither connection: no unknown epoch, no counter out of step |
| TcpTheorems.KeyAgreement | src/internal/server/tcp/server.go:187-211 | In every TCP run in which the client acts on no ack but the answer the server recorded for its epoch, an epoch installed at both ends has equal keys |
| TcpTheorems.AnsweredIsFaithful | src/internal/protocol/rekey/initiator.go:147-198 | A run in which the client acts on recorded answers only is faithful: it never gives its exchange up without the server's next keys |
| TcpAnswers.FitsIffAnswer | src/internal/protocol/rekey/initiator.go:147-198 | In a faithful run, an ack that passes the client's checks yields the server's next keys if and only if it is the answer the server recorded for its epoch |
| TcpAnswers.MistakesExactly | src/internal/protocol/rekey/initiator.go:147-226 | A step mistakes an ack if and only if it settles the exchange by an ack other than its recorded answer |
| TcpAnswers.FaithfulIffSettled | src/internal/protocol/rekey/initiator.go:147-226 | A whole TCP run is faithful if and only if every exchange it settles is settled by its recorded answer |
| TcpAnswers.RunKnown | src/internal/protocol/rekey/rekey.go:101-138 | In every TCP run every ack on the stream, in either loop or remembered by the server is a body the exchange produced in answer to some init |
| TcpKeys.UpNeedsSharedKey | src/internal/protocol/chacha20/tcp/crypto.go:86-111 | In every TCP run, mistakes or not, the server has read and opens only frames of epochs both ends have installed with the same client-to-server key |
| TcpKeys.DownNeedsSharedKey | src/internal/protocol/chacha20/tcp/crypto.go:86-111 | In every TCP run the client has read and opens only frames of epochs both ends have installed with the same server-to-client key |
| TcpKeys.KeysStay | src/internal/protocol/chacha20/tcp/crypto.go:115-164 | However any TCP run goes on, the keys installed for an epoch at either end stay what they are |
| TcpTheorems.EpochsWithinOne | src/internal/protocol/chacha20/tcp/crypto.go:115-164 | The server's newest epoch is the client's or one above it, and at most one above the server's send epoch |
| TcpTheorems.PendingMeansIdle | src/internal/protocol/rekey/initiator.go:89-104 | In every faithful TCP run a pending init implies the idle phase and a send epoch equal to the recorded carrier |
| TcpTheorems.CarrierNeverChanges | src/internal/protocol/rekey/initiator.go:90-93 | The "pending rekey carrier epoch changed" refusal cannot happen in a faithful TCP run |
| TcpTheorems.AnswersNeverFail | src/internal/client/tcp/transport.go:145-157 | In a faithful TCP run the answer the server gave to the pending exchange is accepted without error and moves the client to the server's newest epoch under its keys |
| TcpTheorems.OneInitPerEpoch | src/internal/protocol/rekey/initiator.go:89-119 | Over a faithful TCP run each carrier epoch has one init and one key |
| TcpTheorems.PromotesOnWrite | src/internal/server/tcp/server.go:195-200 | Once its answer is on the stream the TCP server's next call moves its send epoch to the newest, whatever the client has shown |
| TcpGuards.NoResendIsGuarded | src/internal/protocol/rekey/initiator.go:64-119 | A run in which no init is resent is guarded, and in it at most one init, or answer to it, is ever between the coordinators |
| TcpGuards.NoResendDelivery | src/internal/server/tcp/server.go:187-201 | In every TCP run without a resent init both next unread frames open to their texts, over any number of rekeys |
| TcpGuards.NoResendPending | src/internal/protocol/rekey/initiator.go:89-119 | In every TCP run without a resent init a pending init implies the idle phase and an unchanged carrier, the carrier refusal cannot happen, each carrier has one init, and epochs installed at both ends have equal keys |
| TcpResend.PromotedBeforeProof | docs/TunGo/docs/Architecture/Protocol/handshake-and-rekey.md:228-233 | There is a TCP run in which the server sends under a new epoch before any client frame has been sealed under it |
| TcpResend.OneResendBreaksDelivery | src/internal/server/tcp/server.go:195-200 | There is a lawful suite and a run with exactly one resent init after which the client is two epochs on, the server one, and the server has closed the session |
| TcpMistakes.AheadIsRefused | src/internal/protocol/chacha20/tcp/crypto.go:86-111 | An end that sends under an epoch its reader does not have sends only frames the reader cannot open |
| TcpMistakes.ExactlyFaithful | src/internal/protocol/rekey/initiator.go:147-198 | In a TCP run faithful so far, acting on an ack either leaves the exchange pending or makes the next epoch usable, each end opening the first frame the other seals under it, if and only if the ack is not mistaken |
| TcpMistakes.FaithfulIff | src/internal/protocol/rekey/initiator.go:147-226 | A whole TCP run is faithful if and only if every exchange the client settled gave both ends a usable next epoch |
| TcpMistakes.AfterMistake | src/internal/protocol/chacha20/tcp/crypto.go:86-111 | Right after a mistaken ack either the client has moved, and one direction is refused between the two ends as they then are, or it has given its exchange up, ignores every later answer to it, and opens no frame of the server under any later epoch |
| TcpMistakes.MistakeLasts | src/internal/protocol/chacha20/tcp/crypto.go:86-111 | In every continuation of a mistake that moved the client, no frame it ever seals under that epoch is read or opened unless the server has installed the epoch with the same client-to-server key, and likewise downwards; if the server had installed it before the mistake, one direction is lost for good |
| TcpGuards.GuardedIsFaithful | src/internal/protocol/rekey/initiator.go:64-119 | Runs that open no exchange while a copy of an earlier init or an answer to one is about are faithful |
| TcpProtocol.RunInv | src/internal/server/tcp/server.go:130-211 | Every faithful TCP run keeps the protocol invariant: streams in step, phases, exchanges, transactions, answers on the stream |
| TcpProtocol.NextInv | src/internal/client/tcp/transport.go:61-157 | Each single call of each TCP loop keeps it, provided no ack is mistaken |
| TcpProtocol.ServerHandleInv | src/internal/server/tcp/server.go:187-200 | Handling an observed frame keeps the invariant: a repeated init gets the same answer, a new one opens one transaction |
| TcpProtocol.ClientAckInv | src/internal/client/tcp/transport.go:145-157 | An ack that is not mistaken either leaves the client as it was or brings it to the server's newest epoch and keys, and keeps the invariant |
| TcpChannels.SealInStep | src/internal/protocol/chacha20/tcp/session.go:82-100 | A sealed frame is numbered one more than the frames already on the stream under its epoch |
| TcpChannels.NextFound | src/internal/protocol/chacha20/tcp/session.go:102-123 | A next frame under an epoch the reader still keeps is found with its exact counter, and reading it keeps the counters in step |
| TcpChannels.StageInStep | src/internal/protocol/chacha20/tcp/crypto.go:115-154 | Staging a new epoch starts both of its counters where the streams are |
| Phases.PhaseCoupling | src/internal/protocol/chacha20/rekey/state_machine.go:100-167 | After any calls at all: idle exactly when there is no previous session and the newest sends, staged exactly when the previous one sends, retiring exactly when the newest sends with the previous one kept |
| Phases.NeverUnretired | src/internal/protocol/chacha20/tcp/crypto.go:119-121 | The "previous epoch not retired" refusal of StageEpoch is unreachable through the state machine |
| Phases.RetiresSucceed | src/internal/protocol/chacha20/rekey/state_machine.go:139-147 | Every retirement the state machine asks for succeeds |
| Phases.CurrentKeysOfLastActivated | src/internal/protocol/chacha20/rekey/state_machine.go:75-79 | After any calls, over UDP and over TCP, CurrentKeys and the key the back end seals with are those of the last epoch activated while staged, or the initial ones |
| Phases.RunFit | src/internal/protocol/chacha20/rekey/state_machine.go:100-175 | After any calls, over either back end, the machine and its sessions hold exactly the keys installed so far, each under its own epoch |
| Phases.StagedCleared | src/internal/protocol/chacha20/rekey/state_machine.go:159-175 | After any calls, unless an epoch is staged, the staged key buffers are 64 zero bytes |
| TcpEndpoints.TcpStartShaped | src/internal/protocol/chacha20/rekey/state_machine.go:100-124 | Over TCP StartRekey succeeds exactly for full-size keys when idle below the last epoch; then the old newest session becomes the previous one and counts start at zero |
| TcpEndpoints.TcpActivateShaped | src/internal/protocol/chacha20/rekey/state_machine.go:129-147 | Over TCP activation takes effect exactly for the staged epoch and keeps the sessions' shape |
| NonceRuns.NoncesDistinct | src/internal/protocol/chacha20/internal/core/nonce.go:28-69 | In any interleaving of Encrypt, StageEpoch, PromoteSendEpoch and RetirePreviousEpoch on one UDP or TCP crypto, all 12-byte nonces used are pairwise distinct, across epochs too |
| NonceRuns.EpochsIncrease | src/internal/protocol/chacha20/udp/crypto.go:103-137 | The epochs handed out are 1, 2, 3 and so on, never past 65000, so 16 bits never wrap |
| NonceRuns.AlwaysASender | src/internal/protocol/chacha20/tcp/crypto.go:57-84 | Retirement and eviction never leave Encrypt without a session: it fails only when a live session's counter is used up |
| Nonces.NonceInjective | src/internal/protocol/chacha20/internal/core/nonce.go:47-69 | Two equal 12-byte encodings have equal 80-bit counters and equal epochs |
| Nonces.DecodeBigEndian | src/internal/protocol/chacha20/internal/core/nonce.go:64-69 | Reading back a big-endian encoding that is wide enough gives the value |
| Nonces.Layout | src/internal/protocol/chacha20/internal/core/nonce.go:8-17 | Bytes 0 to 7 of the nonce read as the counter's low half, bytes 8 and 9 as its high half, bytes 10 and 11 as the epoch |
| Nonces.BigEndianDigit | src/internal/protocol/chacha20/internal/core/nonce.go:64-69 | Byte i of an encoding is the value's digit of weight 256^(width - 1 - i) |
| Nonces.DecodedPair | src/internal/protocol/chacha20/tcp/crypto.go:86-90 | Two bytes read as 256 times the first plus the second |
| Nonces.Nonce.Increment | src/internal/protocol/chacha20/internal/core/nonce.go:28-42 | The two words together count up by one, carrying into the high word, and refuse exactly at 2^80 - 1, changing nothing |
| Nonces.Nonce.PeekEncode | src/internal/protocol/chacha20/internal/core/nonce.go:47-62 | Gives the nonce Increment would lead to, or fails exactly when Increment would, without moving the counter |
| Nonces.Nonce.Encode | src/internal/protocol/chacha20/internal/core/nonce.go:64-69 | Gives the 12-byte nonce of the current counter and epoch, whose layout `Layout` states |
| ReplayWindow.MarkStands | src/internal/protocol/chacha20/udp/sliding_window.go:53-81 | Bit d of the bitmap is set exactly when max - d has been accepted, and marking one more counter keeps that for the larger set |
| ReplayWindow.CheckRefinesSet | src/internal/protocol/chacha20/udp/sliding_window.go:23-49 | Check refuses exactly the counters accepted before and those 1024 or more below an accepted one with the same high half |
| ReplayWindow.AtMostOnce | src/internal/protocol/chacha20/udp/session.go:110-138 | In any run of arrivals, genuine or forged, no counter is accepted twice while at most four high halves have been accepted |
| ReplayWindow.ReplayIff | src/internal/protocol/chacha20/udp/sliding_window.go:23-81 | After any run of arrivals, some accepted counter would pass Check again if and only if more than four high halves have been accepted |
| ReplayWindow.ForgetsExactlyOnEviction | src/internal/protocol/chacha20/udp/sliding_window.go:53-81 | Accepting a counter lets some number refused before through if and only if its high half is new and four entries are taken |
| ReplayWindow.FifthHighHalfAdmitsReplay | src/internal/protocol/chacha20/udp/sliding_window.go:62-69 | There is a run with five high halves in which a counter is accepted twice |
| ReplayWindow.RunTracks | src/internal/protocol/chacha20/udp/sliding_window.go:23-81 | With at most four high halves the window stands for the whole set of accepted counters, one entry for each half |
| SlidingWindows.ShiftBitmap | src/internal/protocol/chacha20/udp/sliding_window.go:84-103 | Shifting the 16 words in place multiplies the 1024-bit number by 2^n modulo 2^1024, for every 64-bit n |
| SlidingWindows.ShiftedValue | src/internal/protocol/chacha20/udp/sliding_window.go:84-103 | Whole-word moves followed by a carry through the words amount to that multiplication |
| SlidingWindows.MoveWords | src/internal/protocol/chacha20/udp/sliding_window.go:89-96 | The overlapping copy moves every word up by k places and clears the lowest k, so no word is read after it has been overwritten |
| SlidingWindows.MoveBits | src/internal/protocol/chacha20/udp/sliding_window.go:97-102 | The downward loop shifts bits with carries out of the next lower word, reading no word it has overwritten |
| SlidingWindows.MarkBitmap | src/internal/protocol/chacha20/udp/sliding_window.go:53-81 | Marking one counter in place gives the bitmap and maximum of Mark on values |
| SlidingWindows.SlidingWindow.Check | src/internal/protocol/chacha20/udp/sliding_window.go:23-49 | Agrees with the windows' reference check on the numbers the bitmaps stand for |
| SlidingWindows.SlidingWindow.Accept | src/internal/protocol/chacha20/udp/sliding_window.go:53-81 | The in-place window after Accept is exactly the reference window after Accept, eviction of the oldest included |
| UdpSessions.Session.Encrypt | src/internal/protocol/chacha20/udp/session.go:76-108 | Seals with the next counter, which the header encodes, or fails at the last counter with nothing changed; the replay window is untouched |
| UdpSessions.HeaderParts | src/internal/protocol/chacha20/udp/session.go:114-118 | What a receiver reads in the header of a packet is the low and the high half of its number and its epoch |
| UdpSessions.Session.Decrypt | src/internal/protocol/chacha20/udp/session.go:110-138 | Reads the number from the header and opens exactly when the window accepts it, the key matches and the header is the packet's own nonce; a failure leaves the session as it was, a success commits that number |
| UdpSessions.EpochRing.Resolve | src/internal/protocol/chacha20/udp/epoch_ring.go:56-65 | Finds the first slot of an epoch, or reports that there is none |
| UdpSessions.EpochRing.Insert | src/internal/protocol/chacha20/udp/epoch_ring.go:67-79 | Appends a session, first evicting and zeroing the oldest exactly when the ring is full; all other slots are kept |
| UdpSessions.EpochRing.EncryptAt | src/internal/protocol/chacha20/udp/crypto.go:47-74 | Sealing in one slot moves that slot's counter and no other slot |
| UdpSessions.EpochRing.DecryptAt | src/internal/protocol/chacha20/udp/crypto.go:76-98 | Opening in one slot changes that slot's window, only on success, and no other slot |
| UdpCryptos.Crypto.Encrypt | src/internal/protocol/chacha20/udp/crypto.go:47-74 | Seals in the send epoch's slot, in the newest if that is gone, and the header carries the nonce actually used |
| UdpCryptos.Crypto.Decrypt | src/internal/protocol/chacha20/udp/crypto.go:76-98 | Opens in the slot of the epoch read from bytes 10 and 11 of the header; an unknown epoch, a foreign header or a refused or forged packet changes nothing |
| UdpCryptos.Carry | src/internal/protocol/chacha20/udp/crypto.go:47-98 | What one end seals reaches the other through its header alone: the receiver resolves and checks exactly the epoch and number the sender used |
| UdpCryptos.Crypto.StageEpoch | src/internal/protocol/chacha20/udp/crypto.go:103-137 | Refuses past the last epoch and when the oldest slot is the sender's; otherwise inserts the next epoch with both directions' keys |
| UdpCryptos.Crypto.PromoteSendEpoch | src/internal/protocol/chacha20/udp/crypto.go:140-144 | Moves the send epoch and nothing else |
| Outcomes.UdpOpensExactly | src/internal/protocol/chacha20/udp/crypto.go:76-98 | A datagram opens exactly when a slot has its epoch and its key and lets its number through; only that slot's window is marked |
| Outcomes.UdpSealsExactly | src/internal/protocol/chacha20/udp/crypto.go:47-74 | Sealing uses the slot of the send epoch, or the newest when there is none, with its key and next number, and moves that counter alone |
| Outcomes.UdpStageKeepsSender | src/internal/protocol/chacha20/udp/crypto.go:103-137 | Staging never evicts the slot that seals; it refuses exactly when the ring is full and its oldest slot is that one |
| TcpCryptos.Session.Decrypt | src/internal/protocol/chacha20/tcp/session.go:102-123 | Opens only the frame with the next counter and the right key; a failure does not move the receive counter |
| TcpCryptos.Crypto.Encrypt | src/internal/protocol/chacha20/tcp/crypto.go:57-84 | Seals with the send session, whichever of newest and previous it is, behind two bytes that read as its epoch, and fails without change when its counter is used up |
| TcpCryptos.Crypto.Decrypt | src/internal/protocol/chacha20/tcp/crypto.go:86-111 | Opens with newest or previous by the epoch read from the two bytes before the frame, and refuses every other epoch and every foreign prefix without change |
| TcpCryptos.Crypto.StageEpoch | src/internal/protocol/chacha20/tcp/crypto.go:115-154 | Refuses while a previous session is kept or the last epoch is reached; otherwise newest becomes previous and keeps sending |
| TcpCryptos.Crypto.RetirePreviousEpoch | src/internal/protocol/chacha20/tcp/crypto.go:168-179 | Drops and zeroes the previous session exactly when there is one and it does not send; the sending session is never zeroed |
| Outcomes.TcpOpensExactly | src/internal/protocol/chacha20/tcp/session.go:102-123 | A frame opens exactly when a kept session has its epoch and key and has received one number less |
| Outcomes.TcpOpensOnce | src/internal/protocol/chacha20/tcp/session.go:102-123 | A frame that has opened does not open again, whatever frames are tried in between |
| Outcomes.TcpPromotesExactly | src/internal/protocol/chacha20/tcp/crypto.go:156-164 | Promotion makes the newest session send exactly for its own epoch, and otherwise changes nothing |
| StateMachines.CloneKey | src/internal/protocol/chacha20/rekey/state_machine.go:67-72 | A clone has the same bytes in a buffer of its own |
| StateMachines.State.CopyStaged | src/internal/protocol/chacha20/rekey/state_machine.go:100-124 | Staging copies the caller's bytes into buffers the machine already owns; the caller's slices are not retained |
| StateMachines.State.ActivateStaged | src/internal/protocol/chacha20/rekey/state_machine.go:159-167 | Swapping buffers makes the staged keys current exactly when that epoch is staged, and the keys left behind are zeros |
| StateMachines.State.ClearStaged | src/internal/protocol/chacha20/rekey/state_machine.go:169-175 | Zeroing the staged buffers leaves the current keys as they were |
| StateMachines.StateMachine.CurrentKeys | src/internal/protocol/chacha20/rekey/state_machine.go:75-79 | Hands out the current keys in fresh buffers |
| StateMachines.StateMachine.StartRekey | src/internal/protocol/chacha20/rekey/state_machine.go:100-124 | Checks sizes, then the phase, then stages at the back end and copies the keys; every refusal changes nothing |
| StateMachines.StateMachine.ActivateSendEpoch | src/internal/protocol/chacha20/rekey/state_machine.go:129-147 | For the staged epoch swaps, promotes and retires if already confirmed; for any other epoch nothing |
| StateMachines.StateMachine.ObservePeerEpoch | src/internal/protocol/chacha20/rekey/state_machine.go:152-157 | Keeps the maximum and retires if that confirms the current epoch |
| RekeyCoordinators.ServerRekeyCoordinator.Handle | src/internal/protocol/rekey/rekey.go:65-138 | The method with its buffers gives the reply, the error and the new state of the server's transaction rules |
| RekeyCoordinators.ServerRekeyCoordinator.Recall | src/internal/protocol/rekey/rekey.go:84-105 | Decides without changing anything whether a request is refused, answered from memory, or must open a transaction |
| RekeyCoordinators.ServerRekeyCoordinator.ActivateSendEpoch | src/internal/protocol/rekey/rekey.go:189-197 | Marks the remembered transaction when it is of that epoch, then activates |
| RekeyCoordinators.ServerRekeyCoordinator.ObservePeerEpoch | src/internal/protocol/rekey/rekey.go:199-207 | Marks the remembered transaction when it is of that epoch, then observes |
| RekeyCoordinators.ClientRekeyCoordinator.MaybeBuildRekeyInit | src/internal/protocol/rekey/initiator.go:64-144 | The method takes the client's decision, which `Schedules.AsksExactly` and `Schedules.NothingBefore` state: a retry sends the pending exchange again, a new one records its draw, keys and carrier, and a due call of any outcome moves the timer |
| RekeyCoordinators.ClientRekeyCoordinator.HandleRekeyAck | src/internal/protocol/rekey/initiator.go:147-226 | Ignores what does not fit the pending exchange; otherwise derives, stages and activates, version 2 giving up its state even on failure |
| RekeyCoordinators.Install | src/internal/protocol/rekey/rekey.go:140-173 | Handing keys to the state machine and zeroing the handed buffers leaves the machine holding the keys |
| PacketLoops.UdpServerTurnIsSteps | src/internal/server/udp/server.go:145-183 | One handled datagram is exactly the run receive, observe, activate, handle, send of the protocol |
| PacketLoops.UdpClientTurnIsSteps | src/internal/client/udp/transport.go:89-125 | One handled datagram at the client is exactly the run receive, observe, activate, control plane |
| PacketLoops.UdpTunTurnIsSteps | src/internal/client/udp/tun.go:68-119 | One packet from the TUN device is exactly the run send, build, send the due init |
| PacketLoops.TcpServerTurnIsSteps | src/internal/server/tcp/server.go:130-211 | One frame at the server is exactly the run receive, observe, handle, reply and only then activate, closing exactly where the code returns an error |
| PacketLoops.TcpClientTurnIsSteps | src/internal/client/tcp/transport.go:61-116 | One frame at the client is exactly the run receive, observe, control plane |
| PacketLoops.Peer.HandleEstablished | src/internal/server/udp/server.go:145-183 | The server's handler does that turn on the objects, given the packet's own header; beside any other header the packet is dropped |
| PacketLoops.Peer.HandleFrame | src/internal/server/tcp/server.go:130-151 | The TCP server's handler does that turn on the objects; a prefix of another epoch ends the session, a frame too short for one is skipped |
| PacketLoops.Peer.HandleService | src/internal/server/udp/server.go:219-244 | The method takes the server's decision on a service packet, which `Exhaustion.RepliesExactly` states case by case |
| PacketLoops.Transport.HandleDatagram | src/internal/client/udp/transport.go:89-125 | The UDP client's handler does its turn on the objects, given the packet's own header; beside any other header the packet is dropped |
| PacketLoops.Transport.HandleFrame | src/internal/client/tcp/transport.go:75-116 | The TCP client's handler does its turn on the objects; a prefix of another epoch ends the connection, a frame too short for one is skipped |
| PacketLoops.Transport.HandleControlplane | src/internal/client/udp/transport.go:131-160 | The connection ends exactly on the server's exhaustion notice or the client's own exhausted epochs |
| PacketLoops.Transport.HandleTun | src/internal/client/udp/tun.go:68-119 | The UDP client's TUN handler does its turn on the objects |
| Repositories.Repository.Add | src/internal/server/session/repository.go:36-55 | The four indexes describe the live peers afterwards if and only if no live peer had the same internal address |
| Repositories.Repository.Delete | src/internal/server/session/repository.go:61-65 | Removes exactly this peer from the live set and all indexes, zeroing its keys; a peer already closed changes nothing |
| Repositories.Repository.DeleteLocked | src/internal/server/session/repository.go:170-222 | For a live peer exactly its own entries go; for a peer never added the indexes survive exactly when nobody holds its address |
| Repositories.Repository.TerminateByPubKey | src/internal/server/session/repository.go:139-160 | Ends exactly the live peers with that key and returns their number; an empty key ends none |
| Repositories.Repository.ReapIdle | src/internal/server/session/repository.go:243-256 | Ends exactly the live peers last active before the cutoff and returns their number |
| Repositories.Repository.FindByDestinationIP | src/internal/server/session/repository.go:105-129 | Finds a peer if and only if some live peer accepts the address, the peer found accepts it, and the owner of the internal address comes first |
| Repositories.Repository.GetByInternalAddrPort | src/internal/server/session/repository.go:67-76 | Finds the live peer with that address exactly when there is one |
| Repositories.Repository.GetByRouteID | src/internal/server/session/repository.go:78-87 | A peer found by route ID is live and has that ID; as long as every live peer is routed, one is found if and only if some live peer has the ID |
| Repositories.RoutedAdded | src/internal/server/session/repository.go:40-43 | Adding a peer keeps every live peer routed if and only if its route is not in use |
| Repositories.CollidingRoutes | src/internal/server/session/repository.go:185-189 | Two peers with one route ID: after the later one is deleted the earlier one is live and not found |
| Repositories.Peer.TouchActivity | src/internal/server/session/peer.go:184-186 | Records the time that decides whether ReapIdle ends the peer |
| Repositories.Repository.UpdateExternalAddr | src/internal/server/session/repository.go:89-100 | Sets the external address of a peer exactly when it is not closed |
| Repositories.Repository.Unkey | src/internal/server/session/repository.go:199-212 | Removing one peer by moving the last into its place leaves each remaining keyed peer listed exactly once |
| Repositories.Peer.constructor | src/internal/server/session/peer.go:87-119 | A peer accepts exactly its internal address and the addresses in some allowed prefix, however the prefixes were sorted into hosts and networks |
| Repositories.Peer.IsSourceAllowed | src/internal/server/session/peer.go:148-162 | True exactly for the addresses the peer accepts |
| Repositories.SortedAccepts | src/internal/server/session/peer.go:95-108 | Splitting prefixes into single addresses and networks loses and adds no address |
| Repositories.Peer.AcceptsMapped | src/internal/server/session/peer.go:148-162 | A peer accepts the IPv4-mapped form of an address exactly when it accepts the IPv4 address |
| Repositories.IpAdded | src/internal/server/session/repository.go:36-42 | The internal-address index stays right on adding a peer if and only if its address was free among the live |
| Repositories.IpRemoved | src/internal/server/session/repository.go:184-186 | The internal-address index stays right on deleting a peer if and only if the peer was live or its address unindexed |
| Repositories.KeyRemoved | src/internal/server/session/repository.go:199-212 | Swapping with the last and cutting keeps the key index right, including when the list becomes empty |
| Framing.ParseFrame | src/internal/transport/tcp/framing.go:94-112 | A frame followed by anything parses to its payload with exactly that remainder |
| Framing.FrameLayout | src/internal/transport/tcp/framing.go:66-73 | A frame is the payload's length in two bytes, the high one first, and the payload |
| Framing.RefusedExactly | src/internal/transport/tcp/framing.go:94-112 | Each refusal, and success, stated by the number in the first two bytes, the cap, the buffer and what follows |
| Framing.FramedConn.WriteFull | src/internal/transport/tcp/framing.go:76-90 | Terminates under any splitting; success means all bytes are written once and in order, failure a prefix of them; it succeeds however the stream splits as long as no call fails or takes nothing |
| Framing.FramedConn.Write | src/internal/transport/tcp/framing.go:55-74 | Refuses empty and oversized payloads writing nothing; success writes exactly one frame, and a sendable payload succeeds however the stream splits it as long as no call fails or takes nothing |
| Framing.FramedConn.Read | src/internal/transport/tcp/framing.go:94-112 | However the stream splits, success returns exactly the first frame's payload and consumes exactly that frame; as long as no read of the stream fails, it succeeds exactly when the bytes hold such a frame, and each refusal is the one they call for |
| Framing.WriteAll | src/internal/transport/tcp/framing.go:55-90 | Successive Writes put the concatenation of the frames on the stream, and all succeed for any splitting in which no call fails or takes nothing |
| Framing.ReadAll | src/internal/transport/tcp/framing.go:94-112 | Successive Reads of such a stream return those payloads in order, a prefix of them if the stream fails, all of them for any splitting without a failure |
| Framing.RoundTrip | src/internal/transport/tcp/framing.go:55-112 | What successive Writes put on a stream successive Reads return exactly, whatever the splitting at either end, as long as neither stream fails or takes nothing of a write |
| Addressing.OneSubnet | src/internal/config/addressing/ipassign.go:11-81 | In one subnet, client addresses of different counters differ from each other and from the server's, IPv6 low-word wraparound included |
| Addressing.InSubnet | src/internal/config/addressing/ipassign.go:34-81 | An allocated client address lies in its subnet if and only if the subnet leaves room for it; over IPv6 it always does |
| Addressing.MaskedRoom | src/internal/config/addressing/ipassign.go:45-64 | A masked subnet leaves room for every address it allocates |
| Addressing.V4InSubnet | src/internal/config/addressing/ipassign.go:45-64 | An allocated IPv4 address is in its subnet if and only if the subnet's own host part plus the offset stays within the block |
| Addressing.SharedMeansOverlap | src/internal/config/server/validation.go:109-119 | Prefixes with an address in common overlap, so the overlap test leaves no shared address |
| Addressing.OverlapsIff | src/internal/config/server/validation.go:109-119 | Two prefixes overlap exactly when some address is in both |
| Addressing.V4Allocates | src/internal/config/addressing/ipassign.go:45-64 | An IPv4 subnet of prefix length 2 or more serves exactly the counters 1 to total - 3, each the base address plus one plus the counter; the refusal of the network and broadcast address never happens |
| Addressing.V6Allocates | src/internal/config/addressing/ipassign.go:66-81 | A masked IPv6 subnet serves exactly the counters from 1 whose successor is below its size, each the base address plus one plus the counter, and its server the first |
| Validation.Validate | src/internal/config/server/validation.go:11-78 | Accepts a configuration if and only if every enabled profile is well formed, names and ports are distinct, no IPv4 or valid IPv6 subnet of an enabled profile overlaps another of its own or of any other, and the peers are valid |
| Validation.ValidateProfiles | src/internal/config/server/validation.go:16-73 | The loop with its maps accepts exactly distinct, well-formed profiles and collects exactly the IPv4 and valid IPv6 subnets of the enabled ones |
| Validation.ApartIff | src/internal/config/server/validation.go:60-76 | The collected subnets are pairwise apart exactly when those of the profiles' own fields are |
| Validation.ValidateSubnetContainsAddr | src/internal/config/server/validation.go:80-107 | Accepts exactly a valid subnet with a valid address inside it |
| Validation.OverlappingSubnets | src/internal/config/server/validation.go:109-119 | The nested loop finds an overlap exactly when two different positions overlap |
| Validation.ValidateAllowedPeers | src/internal/config/server/validation.go:121-149 | Accepts exactly peers with 32-byte keys, positive client IDs, and no key or ID twice |
| Validation.AddressSeparation | src/internal/config/server/validation.go:11-149 | In a valid configuration with derived server addresses, all allocated client addresses lie in their subnets, differ from every server address and belong to one subnet and one client only, if and only if every allocated address finds room in its subnet |
| Validation.ProfilesSeparate | src/internal/config/server/validation.go:11-149 | Under that condition the addresses allocated on the IPv4 and IPv6 subnets of any two enabled profiles, and on the two of one, are different for any clients |
| Validation.MaskedSeparates | src/internal/config/server/validation.go:60-78 | Configurations whose subnets are all masked meet that condition |
| Validation.ServersInside | src/internal/config/settings/addressing.go:28-55 | In a valid configuration each subnet contains the server address derived from it |
| Validation.UnmaskedCollides | src/internal/config/server/validation.go:60-78 | A valid configuration without room gives two clients the same address |

## Left out

- TcpTheorems.UpwardDelivery: holds in faithful runs; the client's own check (kind, size, carrier epoch) cannot tell an answer to another exchange from the one it waits for, so the condition is on which ack it acts on and not on one call's arguments.
- TcpTheorems.DownwardDelivery: the same.
- UdpSettles.Recoverable: asks that the client is still connected, that no counter is within 30 of 2^80 - 1, and that inits fit one MTU (over version 1 they always do); a client that was told to reconnect is outside the session.
- UdpReceipts.ReadAtMostOnce: asks for at most four high counter halves in each epoch, because the window keeps four; a fifth needs more than 2^66 packets under one key.
- Repositories.Repository.GetByRouteID: a live peer is surely found only while no route has been drawn twice; distinct routes among the peers now live are not enough, as `CollidingRoutes` shows.
- The AEAD is ideal: a packet opens only with the key and nonce it was sealed with. Ciphertext bytes, additional data, the 8-byte route prefix and in-place encryption of the buffers are not modelled.
- The SHA-256 digest of a remembered request is the request itself, as if digests never collide.
- X25519, HKDF, Noise IK and the version 2 prologue hash are parameters with the laws named above; errors from building a cipher are not modelled.
- Each mutex-guarded method is one atomic step, and sealing and writing are one step; races on teardown are not modelled, and no packet is sent or opened after a session is closed.
- Clocks are arbitrary numbers: when a retry is due and when a peer is idle is left open. Keepalive is any ping at any time; its deadlines are not modelled.
- The handshake, cookies, TLS, WebSocket, registration queue and roaming between addresses are not part of this model.
- The IP header parsing that precedes the source check, and writing to the TUN device, have no effect on the session and are left out.
- The TCP client's TUN loop is modelled as steps of `TcpProtocol` only, not as a method.
- Nil-pointer branches (no peer, no crypto, no sender) are not modelled, nor the session teardown that removes single epochs or clears a ring.
- `Framing.WriteAll`, `Framing.ReadAll` and `Framing.RoundTrip` are loops of this project over the original's Write and Read; the original's buffered reader is read straight from the stream.
- IPv6 zones are not modelled. The random source is a parameter.
- Configuration reading, the terminal interface, routes, firewalls and device handling are input and output.
