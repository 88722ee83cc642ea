# Hashshashin: a verified model of its core

Hashshashin is a layer-3 tunnel between a client host in Iran and a server host abroad
(Kharej). This project models its state machines in Dafny and proves what they keep over
every run, every input and every failure point. `dafny verify dfyconfig.toml` checks it.

| part | files |
|---|---|
| 64-bit words, replay window | `Words.dfy`, `Replay.dfy` |
| HSH1 session protocol: messages, one host's steps, the mutable tunnel state | `Messages.dfy`, `Endpoint.dfy`, `TunnelState.dfy` |
| the two hosts, their workers and the network as one transition system, its invariant and theorems | `Protocol.dfy`, `ProtocolInvariant.dfy`, `ProtocolTheorems.dfy`, `Handlers.dfy`, `Progress.dfy` |
| traffic books, hello table, non-interference | `Accounting.dfy`, `Ledger.dfy`, `HelloDedup.dfy`, `NonInterference.dfy` |
| byte formats | `Wire.dfy` |
| stream carrier: frames, all interleavings, the class itself | `Framing.dfy`, `Carrier.dfy`, `StreamCarrier.dfy` |
| Smart Return hysteresis | `ReturnPath.dfy` |
| kernel state and the programs on it: footprint, cleanup, setup, path switching, whole runs | `Kernel.dfy`, `Footprint.dfy`, `Routing.dfy`, `Cleanup.dfy`, `Setup.dfy`, `SmartPolicy.dfy`, `Lifecycle.dfy` |
| packets in the firewall, route selection | `Packets.dfy`, `RoutePolicy.dfy` |

How the model is built:

- Cryptography is symbolic. A key is the term (direction, cn, sn), a sealed box remembers key,
  header and plaintext, a MAC its input. The network may deliver any datagram at any time, any
  number of times, unless that would need a MAC or a box that no host ever made.
- Random values are those not drawn before. Clocks, randomness, the carrier's verdict and the
  outcome of external commands are parameters of the steps or chosen freely.
- Code that changes fields in place is a class whose methods are proved equal to a step on
  values; the protocol's transition system takes the same steps, cut where another goroutine can
  come in between (load session, open, replay check, deliver; record hello, store session;
  take pending, store session).
- `ip` and `iptables` are partial functions on rules, tables and chains. A setup or switch
  command may also have a fault of its own, anywhere; cleanup commands fail only if the kernel
  refuses them. Packets pass the hooks rule by rule, the operator's rules included.
- The stream carrier stands twice. `Carrier.dfy` interleaves reader, writer, reset and Close at
  every step and carries the theorems, among them the contract of one WritePacket call
  (`OneCallOneFrame`); `StreamCarrier.dfy` is the code of a call, with its loops, header and
  payload, proved to meet that contract when nothing comes in between.

Where the code does less than it is meant to do, the exact boundary is proved:

- That the server has installed a session before the client does holds if and only if Kharej
  runs a single receive worker (`AgreementIffOneWorker`). With two, one worker can answer a copy
  of a hello that the other has recorded but not yet stored. The mirrored keys and one session
  for each client nonce hold with any number of workers (`DerivedAgreement`).
- The hello table keeps a second session away if and only if the first copy's timestamp is at
  most 30 seconds ahead of the server's clock; the clock is read twice in `handleHello`, and the
  bound shrinks by the time between the readings, with any number of workers
  (`DedupCoversWindow`).
- An AEAD nonce repeats if and only if a session's 64-bit counter goes all the way round
  (`NonceUniqueness`): nothing in the code stops at the wrap-around (`NoncesCanRepeat`).
- A full-mode run that got going leaves the kernel as it was if and only if the host had no /32
  route to Iran before (`Run`, `LoseOperatorRoute`).
- The monitor does not repeat a path switch that failed, and a failed flush counts as a success:
  the kernel's path and the controller's agree if and only if an even number of switches failed
  since the last that worked (`KernelFollowsIff`, `Stranded`).

## Model

| member | source | states |
|---|---|---|
| Replay.ReplayWindow.constructor | crypto.go:14-18 | the zero window stands for no accepted counter |
| Replay.ReplayWindow.Accept | crypto.go:20-51 | refines the set of all accepted counters: bit i is set exactly when highest - i was accepted; the answer is true exactly when the counter is positive, new and less than 64 behind |
| Replay.SlideBits | crypto.go:33-38 | shifting and setting the lowest bit moves every bit up and drops those that leave 64 bits |
| Replay.SetBits | crypto.go:45-49 | setting bit d changes bit d only |
| Replay.AcceptedOnce | crypto.go:20-51 | over any arrival order no counter is accepted twice |
| Replay.ReorderTolerance | crypto.go:26-50 | all originals are accepted if and only if each comes before any counter 64 or more ahead; then a copy is accepted exactly when it is the first |
| Replay.DuplicateChangesNothing | crypto.go:26-50 | within that limit a duplicate put anywhere after its original is rejected and changes no decision on any other arrival |
| ReturnPath.ReturnPathController.constructor | smart_return.go:24-30 | starts DIRECT with an empty history |
| ReturnPath.ReturnPathController.Observe | smart_return.go:35-66 | appends the observation, reports a change exactly when the path changed; the path is TUNNEL exactly when the latest decisive run in the raw history failed |
| ReturnPath.CounterIsStreak | smart_return.go:35-66 | the active counter is the length of the current streak and below its threshold |
| ReturnPath.LatestRunDecides | smart_return.go:32-66 | the path is TUNNEL if and only if the latest position that ends N straight failures or M straight successes ends failures |
| ReturnPath.FlappingBound | smart_return.go:32-66 | s switches need at least ceil(s/2) N + floor(s/2) M observations |
| ReturnPath.FlappingBoundIsTight | smart_return.go:32-66 | for every s some history of exactly that length has s switches |
| TunnelStates.Session.constructor | crypto.go:76-108 | initiator and responder get the two derived keys in opposite order, counters at zero |
| TunnelStates.TunnelState.constructor | transport.go:51-62 | the fresh state |
| TunnelStates.TunnelState.StoreSession | transport.go:75-82 | the new session becomes current, older ones keep their books |
| TunnelStates.TunnelState.ClearIf | transport.go:84-92 | there is no session afterwards if it was the given one, else the same as before |
| TunnelStates.TunnelState.BeginHandshake | transport.go:145-153 | the client nonce is pending |
| TunnelStates.TunnelState.EndHandshake | transport.go:154-160 | pending is cleared only if it is still this nonce |
| TunnelStates.TunnelState.HandleHello | transport.go:240-286 | the whole handler equals the protocol's step: MAC, 90 s skew, purge, stored ack again or new session with a 2-minute record |
| TunnelStates.TunnelState.HandleHelloAck | transport.go:288-316 | installs a session only for the pending nonce, which it consumes |
| TunnelStates.TunnelState.HandleEncrypted | transport.go:318-362 | gate, open, replay check and delivery in that order, each failure in its own counter |
| TunnelStates.TunnelState.AcceptCounter | transport.go:338-341 | accepted exactly when the session's history admits the counter; other sessions untouched |
| Endpoint.SendEncrypted | transport.go:364-380 | the packet bears this kind and the session's next counter modulo 2^64, and opens, to this payload, under the session's sending key and no other |
| TunnelStates.TunnelState.SendEncrypted | transport.go:364-399 | emits that packet and counts bytes and packets or an error; it is the packet whose seal the run theorems are about |
| TunnelStates.TunnelState.NotifyProbeAck | smart_return.go:76-87 | appends the nonce to a channel that holds fewer than 32, leaves a full one as it is and an absent one absent |
| TunnelStates.TunnelState.InitProbeAck | smart_return.go:68-74 | makes the channel once |
| TunnelStates.TunnelState.WaitProbeAck | smart_return.go:89-108 | true exactly when the nonce is among the acks read in time; acks of other rounds are discarded, later ones stay |
| ProtocolInvariant.StepKeeps | transport.go:141-399 | every atomic step of either host, any worker, keeps the protocol invariant |
| ProtocolInvariant.ReachableInv | transport.go:141-399 | the invariant holds in every reachable state, for any number of workers |
| ProtocolTheorems.NonceUniqueness | transport.go:364-378 | over every run with any number of rekeys no (key, nonce) pair is sealed under twice, if and only if no session's counter went past 2^64 |
| ProtocolTheorems.NoncesCanRepeat | transport.go:364-378 | for any numbers of workers such a run exists: a handshake and 2^64 + 1 sends |
| ProtocolTheorems.DeliveryAuthentic | transport.go:318-362 | every payload written to a TUN was sent as data by the peer in the session with the mirrored keys |
| ProtocolTheorems.DeliveredOnce | transport.go:318-362 | no send is written twice, under any interleaving and across session replacement |
| ProtocolTheorems.DerivedAgreement | transport.go:269-316 | whatever Iran installed, Kharej had derived with the keys swapped; Iran installs at most one session per client nonce |
| ProtocolTheorems.SoloAgreement | transport.go:240-316 | with one receive worker Kharej had already installed the mirrored session |
| ProtocolTheorems.RacingWorkers | transport.go:262-286 | with two workers a run exists in which Iran installs first |
| ProtocolTheorems.AgreementIffOneWorker | transport.go:240-316 | the order is guaranteed if and only if Kharej runs one worker |
| ProtocolTheorems.ProbeSoundness | direct_probe.go:84-134 | the monitor records a success only if Iran's responder verified that round's own probe after the round began and acknowledged it in a session |
| Accounting.StepBalances | transport.go:318-399 | every step keeps the four balances on both hosts |
| Accounting.BooksBalance | transport.go:75-82 | in every reachable state, modulo 2^64 and summed over all sessions: bytes equal data plus control bytes each way, sends equal successes plus errors, every gated datagram is in flight or in exactly one of four counters |
| Ledger.CountersAreTally | transport.go:318-399 | over every run each of the eleven counters of both hosts equals, modulo 2^64, the tally of what happened: packets and bytes sent and received by kind, send errors, decryption errors, replay drops |
| Ledger.LastSeenIsLastHeard | transport.go:342-343 | over every run a session's lastSeen is the time of the last delivery in it, or of its making |
| HelloDedup.NoSecondSession | transport.go:249-283 | unless its timestamp is too far ahead, no later copy of an accepted hello opens a second session, whatever arrives in between and however the handlers of several workers overlap before the lock |
| HelloDedup.AnExposedHelloRepeats | transport.go:253-283 | otherwise some copy does, whatever random value the server draws for it |
| HelloDedup.DedupCoversWindow | transport.go:253-283 | the two as one equivalence: the timestamp may be ahead by 30 s less the time between the two clock readings; with one reading by 30 s |
| NonInterference.GenuineMatched | transport.go:222-362 | a step that handles no rejected datagram is still possible, to the same effect, when all rejected ones never arrived |
| NonInterference.RejectedLeaveNoTrace | transport.go:222-341 | deleting from any run, with any number of interleaved workers, all datagrams that fail verification leads to the same sessions, hello table, pending state, replay windows, TUN output, probe results and everything sent; only `decryptErrors` differs, and which workers are busy with such datagrams |
| Handlers.EncryptedInSteps | transport.go:318-362 | run without interruption, load, open, replay check and delivery are the handler that `TunnelState.HandleEncrypted` is proved equal to |
| Handlers.HelloInSteps | transport.go:240-286 | the same for record and store |
| Handlers.AckInSteps | transport.go:288-316 | the same for taking the pending nonce and storing |
| Progress.TakenIffDue | transport.go:318-362 | a datagram from the session's peer, sealed for the current session, with a new counter is taken, with its exact effect on TUN, window, books and liveness; any other changes none of them |
| Progress.DeliversIff | transport.go:343-349 | the TUN gets a packet if and only if such a data packet has a payload, and then exactly that payload |
| Progress.DeliversWhatPeerSealed | transport.go:318-349 | in every reachable state a worker that takes a datagram writes to the TUN if and only if the peer sealed it as data with a payload in the session mirrored to the current one, it comes from that session's peer, and its counter is new |
| Progress.HelloOpensIff | transport.go:240-283 | a verified, timely hello opens a session if and only if it is not on record; on record it is answered without; any other is ignored |
| Progress.HandshakeRoundTrip | transport.go:197-316 | the server's own answer to a new hello, handed to any client waiting for it, installs the mirrored session on both ends, unused and bound to the senders |
| Progress.RepeatedHelloJoins | transport.go:262-267 | in every reachable state the answer to a repeated hello leads the client to a session the server has derived for it |
| Progress.FirstPacketArrives | transport.go:343-380 | the first data packet in a mirrored pair of unused sessions reaches the other end's TUN, either way |
| Progress.NotifyQueues | smart_return.go:83-86 | the channel keeps its content and takes the nonce while it holds fewer than 32 |
| Progress.AcknowledgedProbeCounts | smart_return.go:76-108 | from every reachable state in which the monitor waits for a probe that Iran acknowledged in the current session, with a new counter, an idle worker and room in the channel, a continuation records the round's success |
| Wire.PurposesNeverCollide | transport.go:186-206 | the MAC inputs of hello, ack, probe and key derivation are injective and pairwise disjoint |
| Wire.HelloRoundTrip | transport.go:186-195 | a packet parses as this hello if and only if it is the one printed for it |
| Wire.AckRoundTrip | transport.go:197-206 | the same for hello acks |
| Wire.EncryptedRoundTrip | transport.go:372-380 | the same for encrypted packets of at least 29 bytes |
| Wire.ProbeRoundTrip | direct_probe.go:20-51 | a probe verifies if and only if it is printed for that nonce with a timestamp within 90 s |
| Wire.NonceInjective | crypto.go:110-114 | different counters give different nonces |
| Framing.DeframePrefix | carrier.go:177-196 | complete frames at the start of a byte stream are a prefix of the frames written to it, whatever partial frame follows |
| Framing.WrittenUnique | carrier.go:209-219 | which complete frames a byte stream holds is determined by its bytes |
| Carrier.StepKeeps | carrier.go:102-255 | every step of reader, writer, resetConn and Close keeps ownership and framing |
| Carrier.ConnectionsOwned | carrier.go:102-165 | in every reachable state a connection is current, closed, or with the one goroutine that just made it; after Close none is current |
| Carrier.NeverOverwritten | carrier.go:149-165 | a live published connection is never replaced, only closed; `closed` is final |
| Carrier.WrittenFrames | carrier.go:200-238 | the complete frames among the bytes of a wire are exactly the packets whose call returned nil on it, in order; a failed call leaves at most the start of a frame |
| Carrier.OneCallOneFrame | carrier.go:200-224 | on the bytes of every wire: one WritePacket call completes its frame on exactly one connection if it returns nil and on none otherwise, whatever it dials and whatever reader, resets and Close do meanwhile |
| Carrier.WriteCompletes | carrier.go:200-221 | from every reachable state a sendable packet on the current connection can be written and the call return nil on it |
| Carrier.ReadCompletes | carrier.go:167-197 | from every reachable state a frame that has arrived on the current connection can be read and returned |
| Carrier.FramingAcrossReconnects | carrier.go:167-224 | for all chunkings and failures the packets read on a connection are a prefix of those written on its other end |
| StreamCarriers.WriteAll | carrier.go:226-238 | everything is written, or a proper prefix with an error, which comes of exactly one failed or empty write |
| StreamCarriers.ReadFull | carrier.go:178-193 | exactly n bytes, or fewer with an error, which comes of exactly one read without bytes |
| StreamCarriers.WriteFrame | carrier.go:209-219 | success adds exactly this frame, failure none |
| StreamCarriers.ReadFrame | carrier.go:177-196 | a returned packet is the next frame and fits the buffer; refused exactly if the four header bytes give zero or more than the limits; broken only after a read without bytes |
| StreamCarriers.StreamCarrier.EnsureConn | carrier.go:102-156 | keeps a live connection, makes one only if there is none; none only if closed or if dialling failed |
| StreamCarriers.StreamCarrier.ResetConn | carrier.go:158-165 | closes and clears the connection only if it is the current one |
| StreamCarriers.StreamCarrier.Close | carrier.go:240-255 | closed, with the current connection closed and cleared |
| StreamCarriers.StreamCarrier.WritePacket | carrier.go:200-224 | success completes the frame on the current connection alone; failure only if the packet is not sendable, the carrier closed, no connection to be had, or a write failed on each of two; every connection given up is closed with its bytes accounted for; a sendable packet on a steady open carrier is written |
| StreamCarriers.StreamCarrier.ReadPacket | carrier.go:167-198 | a returned packet is the next frame of the current connection; an error names a refused header; broken off only when closed or when every round lost a connection or got none; every connection given up is closed with its bytes accounted for |
| Footprint.OursStay | routing.go:48-173 | no command of the setup programs leaves the program's footprint |
| Footprint.ReplaceUndoneIff | routing.go:154-156 | deleting the /32 route undoes replacing it if and only if there was no route to that destination |
| Routing.ResetChain | routing.go:200-209 | the chain is empty; its hook is unchanged if it held the jump, else has it on top (also when looking for it failed); nothing else changes, any failure keeps the footprint, and without a fault it succeeds |
| Routing.DeleteChain | routing.go:211-217 | every jump to the chain is gone, then the chain |
| Routing.CleanupRouting | routing.go:175-191 | the program's effect as a function of the kernel |
| Routing.CleanupSmartReturn | smart_policy.go:63-69 | likewise for rule 68 and table 168 |
| Cleanup.CleanupYields | routing.go:175-217 | from any kernel over a clean base, cleanup yields the base with `main` less the program's route |
| Cleanup.CleanupRestoresIff | routing.go:175-191 | so it restores the base if and only if it restores `main` |
| Cleanup.MainSurvivesIff | routing.go:154-190 | cleanup, setup, cleanup: `main` comes back if and only if it fits: no route to Iran in full mode with ports, none to Iran through the tunnel device otherwise on Kharej, anything on Iran |
| Setup.SetupIranRouting | routing.go:48-101 | wherever it stops the footprint is kept; without a fault it succeeds; then rule 66, table 166 and the exact rules of six chains, with interfaces, addresses, ports, states and targets, over all ports and protocols |
| Setup.SetupTransportBypass | routing.go:103-113 | on success rule 77 and the default route of table 167 with gateway and source address, nothing else |
| Setup.SetupKharejRouting | routing.go:115-173 | the same for Kharej in both modes, with and without Smart Return |
| Setup.SetupCarrierFirewall | carrier_firewall.go:14-67 | on success the carrier's rule is in the input chain, on top unless it was there, and the chain is hooked; only that chain and hook change |
| SmartPolicy.SetKharejReturnPath | smart_policy.go:71-87 | the new table 168 is in place exactly when the command has no fault, nothing else changes; a failed flush is reported as success |
| SmartPolicy.SetupSmartReturnPolicy | smart_policy.go:16-61 | on success rule 68, an empty table 168 and one mark rule per service port and protocol; wherever it stops the footprint is kept |
| Lifecycle.Start | main.go:154-176 | sweeps whatever an earlier run left; fails only through a fault and then, where `main` fits, restores the kernel exactly; on success exactly the configured rules, tables, chains and hooks |
| Lifecycle.Monitor | direct_probe.go:98-157 | for any probe outcomes and any faults of the switch commands the kernel is one of the two installed states, and the one the outcomes call for exactly when an even number of switches failed since the last that worked |
| Lifecycle.KernelFollowsIff | direct_probe.go:135-146 | kernel and controller agree if and only if an even number of switches had a fault since the last that had none |
| Lifecycle.Stranded | direct_probe.go:135-146 | for all thresholds a history in which they part |
| Lifecycle.Run | main.go:154-180 | start, any switches, stop, with faults anywhere: the kernel is exactly what it was where `main` fits; a run that got going, as every run on a host without faults does, restores it if and only if `main` fits |
| Lifecycle.LoseOperatorRoute | routing.go:154-190 | the witness: on a host whose commands have no faults, where the run starts for certain, full mode loses an operator's /32 to Iran and every other configuration keeps it |
| RoutePolicy.SentIs | smart_policy.go:27-42 | through the OUTPUT hook and the operator's own rules: exactly unmarked Kharej-to-Iran packets of configured services get mark 0x68, socket marks survive, and what is dropped was dropped before |
| RoutePolicy.SmartLookup | smart_policy.go:22-87 | route selection with Smart Return as one equation for every address and mark |
| RoutePolicy.DirectIsTransparent | smart_policy.go:76-80 | with the DIRECT path every packet but the carrier's goes where it went without the program |
| RoutePolicy.TunnelTakesService | smart_policy.go:81-83 | with the TUNNEL path service packets enter the TUN unless an operator's rule drops them or comes first; all others but the carrier's go as without the program |
| RoutePolicy.ServiceOnlySwitching | smart_policy.go:13-87 | for every packet: DIRECT and TUNNEL differ if and only if it is service traffic, not dropped nor routed ahead by the operator, that the host would not send into the TUN by itself |
| RoutePolicy.NoRecursiveTunnelling | routing.go:103-113 | in every installed state a 0x77 packet keeps its mark through all OUTPUT rules and leaves through the public interface, unless an operator's rule comes first |
| RoutePolicy.FullModeOnlyIran | routing.go:150-156 | full mode leaves every packet not to Iran where it was |
| RoutePolicy.FullModeTakesIran | routing.go:150-156 | and sends unmarked packets to Iran into the TUN |
| RoutePolicy.IranForwardsServices | routing.go:48-83 | through the PREROUTING hooks of mangle and nat with the operator's rules: exactly the configured services are redirected to Kharej and sent into the TUN, everything else is received and routed as without the program |
| RoutePolicy.IranPassesServices | routing.go:79-91 | through the FORWARD and POSTROUTING hooks: services into the TUN and replies are accepted, what leaves for Kharej through the TUN bears Iran's address; for every other packet the operator's rules decide as without the program |
| RoutePolicy.IranCarriesService | routing.go:72-91 | a new packet for a service, all the way: redirected, marked, routed into the TUN, accepted, and sent under Iran's address |
| RoutePolicy.IranGuardsInput | routing.go:66-70 | through the INPUT hook: exactly the carrier's packets and, with Smart Return, Kharej's probes are let in by the program; all others meet the operator's rules as without it |
| RoutePolicy.KharejGuardsServices | routing.go:115-137 | through the INPUT hook: services are accepted from the TUN and, locked, dropped from outside; every other packet but the carrier's meets the operator's rules as without the program |
| RoutePolicy.KharejAdmitsCarrier | carrier_firewall.go:30-67 | the carrier's packets are let in whatever else is locked |
| RoutePolicy.KharejLetsRepliesOut | routing.go:139-160 | through the OUTPUT filter: replies to Iran are accepted on the paths of the mode; for every other packet the operator's rules decide as without the program |
| RoutePolicy.OutcomesDecideRoute | direct_probe.go:112-146 | from probe outcomes to packets: a service packet goes where the latest decisive run of probes says if and only if an even number of switches failed since the last that worked, or both ways are the same |

## Left out

- Real AES-GCM, HMAC and SHA-256: symbolic terms, injective by construction.
- recvLoop's dispatch by type and role: each handler is a step of the role that runs it; other packets do nothing.
- Errors of the random source, of deriveSession and of makeDirectProbe: those steps then do not happen.
- handshakeClient's retry and poll loop: begin, end and free re-delivery of the hello by the network; supervisor timing: rekey, expiry and keepalive may happen at any time.
- time.Time's range: a timestamp is any integer, so overflow in time.Unix for extreme values is not modelled.
- Finer interleavings: inside a delivery touch, counters and the TUN write are one step; in sending, so are the increment, the seal and the carrier's verdict.
- Sockets, TUN device, KCP, buffer tuning, buffer pool, statistics, logging, configuration parsing, signals and the shutdown race.
- ReadFull: the standard library's function, as a loop over reads of any size.
- ReadPacket: the endless retry is bounded by any number of rounds, standing for the end of the context.
- Conntrack's own bookkeeping and NAT of replies: a packet's connection state is an attribute of it. MSS clamping: the clamp rules are kept as data, in order, and shown to leave marks, addresses and verdicts alone, but no theorem interprets the MSS.
- Operator rules: rules of kinds not modelled are taken to have no effect; the routing theorems assume that the operator neither sets nor looks at marks in the hooks concerned nor uses the program's tables and marks in policy rules. Both are stated as preconditions.
- Cleanup commands that fail for a reason of their own at the end of a run: the kernel is then not restored, as in the code.
- setupTun: its outcome is a parameter.
- Failing `iptables -C`: a fault there may insert a second jump or rule, which cleanup removes; the contracts describe both outcomes.
