# Verified model of the campus VPN client

The repository is a Go client for a campus zero-trust gateway. It logs in, keeps one tunnel
connection per login, authorises every network flow with the server, and carries IPv4 packets
between that tunnel and a local WireGuard peer or SOCKS5 proxy. This project models its hardest
parts in Dafny and proves what they promise for every input, every run and every interleaving.
`dafny verify dfyconfig.toml` checks everything.

## What is modelled

- **Flow table** (`FlowTable`, `FlowInvariant`, `FlowHistory`, `FlowLedger`, `FlowRuns`,
  `FlowEffects`, `Conntrack`). `FlowTable` says what each operation does to the three maps.
  `Conntrack` is the program's own form, a class whose loops delete while they sweep and whose
  counters run along; every method is proved to leave the table the specification describes. The
  other modules prove the invariant, what each operation decides in each case, and, with a log
  kept beside the table, packet conservation, the request budget and the tiling of fragments over
  all runs. Time is an integer argument, map iteration order is
  arbitrary, and a `*flow` is identified by its auth id, which is issued once per allocation.
- **Uplink** (`Packet`, `Resource`, `Wildcard`, `Tunnel`). Parsing, the choice of a grant, and
  `Send` and `handleAuthResp` on top of the flow table and the wire format: a packet leaves only
  under the token of a flow of its own addresses whose grant is the declarative choice.
- **Address mapper** (`Checksum`, `Mapper`). In-place rewriting on an array against functions on
  byte sequences, with the arithmetic modulo 65535 that shows the incremental checksums right.
- **Wire format** (`Wire`). Re-splitting of the downlink under any chunking, and the client's
  frames against the server decoder of the repository's test double.
- **Service actor** (`ServiceModel`, `ServiceCore`, `Service`). `ServiceModel.Serve` is a small
  reference machine without timers, generations or teardown; `Service.Actor` is the actor with
  its fields; `ServiceCore` proves that the second follows the first and never holds two logins.
  What the network answers is a parameter of each command.
- **Interleavings** (`StopRace`, `Relay`, `Endpoint`, `NodeProbe`, `SessionClose`). Each is a
  transition system whose steps are the program's atomic actions: one atomic load or store, one
  channel operation, or one critical section. `Exec` runs any list of steps from the start, and
  the theorems quantify over all of them.

## Properties that the code meets only in part

- *No command survives a Stop.* It can, in two ways. When `Stop` calls overlap, the first one's
  queued command lowers the flag which the second has raised, after the second found nothing to
  cancel, and the next login command runs uncancelled (`StopRace.OverlappingStopsEscape`). The
  same happens to calls made strictly one after the other, when the first came back on its
  deadline after the dispatcher had taken up its command (`StopRace.UnansweredStopEscapes`).
  `NextCommandEscapesIffLowered` gives the exact window and `EscapeNeedsOvertaking` shows that
  nothing else opens it. Called one at a time, Stops keep the promise if no earlier stop command
  is in the dispatcher's hands (`SerialStopsCatchAll`), and whenever one is, an escape can follow
  (`StopInHandLetsEscape`). A caller is safe that waits for the actor's answer to each Stop
  (`AnsweredStopsCatchAll`).
- *A rewritten packet keeps its transport checksum verifying.* A first fragment may end before
  the checksum field, as a TCP fragment with 8 or 16 bytes of payload does. The mapper then changes
  the pseudo header, and nobody corrects the field in the next fragment
  (`Mapper.ShortFragmentBreaks`). `Mapper.SegmentVerdictExact` gives the condition for all packets:
  a segment that verified goes on verifying if and only if its field lies in the buffer or the two
  addresses have the same sum modulo 65535.

## Model

| member | source | states |
|---|---|---|
| `Packet.AcceptedIsWellFormed` | internal/ztna/packet.go:48-112 | an accepted packet has consistent keys and fits in 16 bits; an accepted fragment has a layout that can be tiled in units of eight inside one datagram |
| `Packet.ParsesFromBytes` | internal/ztna/packet.go:48-112 | acceptance if and only if the bytes meet the layout rules; every key, port, offset, flag and length is read from its place in the bytes |
| `Conntrack.ConnTable.constructor` | internal/ztna/conntrack.go:76-82 | a new table is the empty table and satisfies the invariant |
| `Conntrack.ConnTable.QueuePacket` | internal/ztna/conntrack.go:83-167 | the maps and the reported token, queued flag and error are those of the specification; counters stay equal to the sums |
| `Conntrack.ConnTable.LocateFlow` | internal/ztna/conntrack.go:91-146 | the flow a packet is charged to, with evictions, fragment sweeps and every error |
| `Conntrack.ConnTable.AdmitPacket` | internal/ztna/conntrack.go:127-166 | rejection, buffering or release of a packet on its flow and the progress of its datagram |
| `Conntrack.ConnTable.PendingAuth` | internal/ztna/conntrack.go:168-190 | for whatever order the map is visited in, the scan of the specification, over all flows unless the limit was reached |
| `Conntrack.ConnTable.RetryAuth` | internal/ztna/conntrack.go:192-212 | the one retry is scheduled, refused or already spent as specified |
| `Conntrack.ConnTable.ReleasePending` | internal/ztna/conntrack.go:213-221 | hands out exactly the buffered packets and returns their budget |
| `Conntrack.ConnTable.CompleteAuth` | internal/ztna/conntrack.go:222-243 | the released packets and the new table of a response |
| `Conntrack.ConnTable.Remove` | internal/ztna/conntrack.go:255-267 | removes one flow from all three maps and its packets from the budget |
| `Conntrack.ConnTable.Expire` | internal/ztna/conntrack.go:275-294 | the batch sweep leaves the specified table and counts exactly the expired flows |
| `Conntrack.ConnTable.Clear` | internal/ztna/conntrack.go:295-304 | closes and empties the table for good |
| `Conntrack.ConnTable.RejectFragment` | internal/ztna/conntrack.go:305-309 | drops one association and nothing else |
| `FlowInvariant.QueueKeepsInv` | internal/ztna/conntrack.go:83-167 | queueing keeps: both flow maps the same set, packets exactly on pending flows, live matching associations, all five capacity bounds, deadlines under 26 s |
| `FlowInvariant.PendingAuthKeepsInv` | internal/ztna/conntrack.go:168-190 | so does the scan for due requests, in any order |
| `FlowInvariant.RetryKeepsInv` | internal/ztna/conntrack.go:192-212 | so does a retry, which extends the deadline once |
| `FlowInvariant.CompleteKeepsInv` | internal/ztna/conntrack.go:222-243 | so does a response of any kind |
| `FlowInvariant.RemoveKeepsInv` | internal/ztna/conntrack.go:255-267 | so does the removal of any set of flows |
| `FlowInvariant.ExpireIsRemoval` | internal/ztna/conntrack.go:268-294 | the batch sweep equals removing the expired flows and then sweeping the fragments |
| `FlowInvariant.OneByOneIsRemoval` | internal/ztna/conntrack.go:262-267 | removing flows one by one, in any order, is removing them all at once |
| `FlowInvariant.ExpireOneByOne` | internal/ztna/conntrack.go:262-294 | the batch sweep leaves what removing the expired flows one by one, in any order, and then sweeping the fragments would |
| `FlowHistory.ApplyKeepsInv` | internal/ztna/conntrack.go:83-309 | every operation keeps the invariant |
| `FlowHistory.ApplyEvolves` | internal/ztna/conntrack.go:83-309 | a flow keeps key, grant and creation time for life; its buffer is kept, emptied, or extended at the end by the packet just accepted |
| `FlowLedger.RecordConserves` | internal/ztna/conntrack.go:127-166 | accepted packets of a flow are, in order, the released, the discarded and the buffered ones, only one of the three non-empty; what is discarded is what had a recorded cause |
| `FlowLedger.LostHasCause` | internal/ztna/conntrack.go:213-303 | a packet leaves a buffer without being released only because the table is cleared, its flow's deadline has passed, or the response refuses that flow |
| `FlowLedger.CompleteHandsOut` | internal/ztna/conntrack.go:222-254 | packets are released only for a pending flow, all at once, on a grant with a valid token, less than 26 s after its creation |
| `FlowLedger.RecordRequestsOk` | internal/ztna/conntrack.go:168-211 | at most two requests per auth id ever, the second at least 10 s after the retry was scheduled |
| `FlowLedger.UnaskedResponseIsInert` | internal/ztna/conntrack.go:192-243 | a response before any request changes nothing and releases nothing |
| `FlowRuns.QueueFragments` | internal/ztna/conntrack.go:91-117 | only an accepted fragment moves its association on; the window is never extended and the last fragment removes it |
| `FlowRuns.RecordTrainsOk` | internal/ztna/conntrack.go:155-165 | accepted fragments of a datagram run from 0 without gap or overlap, on the first one's flow, within 5 s, ending at 65515 at most |
| `FlowRuns.RunSound` | internal/ztna/conntrack.go:83-309 | invariant, conservation, request budget and tiling hold after every run of operations |
| `FlowRuns.RejectionAddsNothing` | internal/ztna/conntrack.go:83-154 | an erroring queuePacket adds no flow and no budget and leaves surviving flows as they were but for the time of last use |
| `FlowRuns.ScanServes` | internal/ztna/conntrack.go:168-190 | a scan not cut short by its limit leaves no visited flow expired or with a request due |
| `FlowRuns.ScanSends` | internal/ztna/conntrack.go:168-190 | every request returned is for a live flow, carries its key and grant, and is marked as sent |
| `FlowEffects.QueueDecides` | internal/ztna/conntrack.go:83-154 | exactly when a packet is queued, sent or refused, and with which error, from the table before it, with all limits in numbers |
| `FlowEffects.AcceptedGrows` | internal/ztna/conntrack.go:118-153 | an accepted packet leaves the flow in force used now and grown by it, or a new flow holding just it, and changes no other |
| `FlowEffects.RefusedFragmentGone` | internal/ztna/conntrack.go:91-154 | a refused fragment ends its datagram's association |
| `FlowEffects.ResponseDecides` | internal/ztna/conntrack.go:222-243 | for a flow that waits in time, a grant with a valid token releases exactly its non-empty buffer and makes it ready; anything else refuses it; a late one removes it; nothing else changes |
| `FlowEffects.RetryDecides` | internal/ztna/conntrack.go:192-212 | the first "try again" schedules the retry ten seconds on and is reported; later ones are reported until the second request went out; a late one removes the flow |
| `FlowEffects.OthersIgnored` | internal/ztna/conntrack.go:192-243 | neither concerns a flow that waits for no answer |
| `FlowEffects.SweepTakes` | internal/ztna/conntrack.go:244-294 | a sweep takes exactly the flows that ran out, the overdue associations and those of the flows taken |
| `FlowEffects.ClearedStaysEmpty` | internal/ztna/conntrack.go:83-90 | a cleared table is empty and closed, and no operation changes it any more |
| `Tunnel.ChargedRight` | internal/ztna/conntrack.go:91-166 | an accepted packet is charged to a flow of its own five-tuple, or of its addresses and protocol if it is a later fragment |
| `Tunnel.ApplyKeepsRight` | internal/ztna/tunnel.go:323-338 | every flow's app id is the declarative choice for its five-tuple and every buffered packet belongs to its flow, whatever operation runs |
| `Tunnel.TunnelConn.constructor` | internal/ztna/resource_parse.go:188-204 | a connection starts with the rules stably sorted and an empty flow table |
| `Tunnel.TunnelConn.Match` | internal/ztna/tunnel.go:323-336 | the grant found is the choice over the server's list, and none is found only if no rule covers the packet |
| `Tunnel.TunnelConn.Send` | internal/ztna/tunnel.go:304-348 | refusals with their reasons, malformed exactly when the bytes break the layout rules, every field read from its bytes, the grant being the one chosen for its destination, protocol and port; the new flow table, and a frame that the server decodes to this packet under the token of a ready flow it belongs to; a failing write closes the connection and clears the table |
| `Tunnel.TunnelConn.HandleAuthResp` | internal/ztna/tunnel.go:446-496 | closes, retries, refuses or releases: a grant in time sends the whole, non-empty buffer, decoding to the buffered packets in order, in batches of 32 but for the last, under the new token; a refusal fails the flow, the first "try again" schedules its retry; a failing write keeps the batches before it, closes and clears |
| `Resource.StableSort` | internal/ztna/resource_parse.go:188-217 | the result lists every input once, sorted, ties in input order |
| `Resource.SortRules` | internal/ztna/resource_parse.go:188-204 | the parser's order of the IPv4 rules |
| `Resource.SortDomains` | internal/ztna/resource_parse.go:205-217 | the parser's order of the domain rules |
| `Resource.PrefixMeans` | internal/ztna/resource.go:98-103 | a prefix contains exactly the addresses from its base on that differ in the low bits |
| `Resource.MatchIP` | internal/ztna/resource.go:98-109 | the first rule of the list that covers destination, protocol and port, or none |
| `Resource.ScanIsChoice` | internal/ztna/resource.go:98-109 | on the sorted list that rule is: longest prefix, then a rule for the protocol over one for all, then the earliest in the server's list |
| `Resource.ChosenUnique` | internal/ztna/resource.go:98-109 | that choice is unique |
| `Resource.MatchDomain` | internal/ztna/resource.go:116-123 | the first domain rule that admits host and port, or none |
| `Resource.DomainScanIsChoice` | internal/ztna/resource.go:116-123 | on the sorted list that rule is: an exact name over any wildcard, then the longest literal text, then the earliest |
| `Resource.ChooseDomain` | internal/ztna/resource.go:111-123 | sorting once and scanning finds the choice over the server's list, or nothing if no rule admits the host and port |
| `Resource.ChosenDomainUnique` | internal/ztna/resource.go:111-123 | that choice is unique |
| `Wildcard.Matches` | internal/ztna/resource.go:156-178 | accepts a host if and only if some texts for the stars turn the pattern into the host |
| `Wildcard.MiddleSegment` | internal/ztna/resource.go:156-178 | taking the leftmost occurrence of a literal segment never loses a match |
| `Wildcard.LastSegment` | internal/ztna/resource.go:156-178 | after the last star only the suffix matters |
| `Wire.SplitStream` | internal/ztna/wire.go:321-340 | the loop computes the split of the specification, errors included |
| `Wire.SplitContinues` | internal/ztna/wire.go:321-340 | splitting more of the stream continues from the remainder; an error is final |
| `Wire.SplitMeans` | internal/ztna/wire.go:321-340 | packets and remainder are the one way to read the stream as complete packets followed by a beginning, or the error says why what follows is none |
| `Wire.EveryStreamParses` | internal/ztna/wire.go:321-340 | every stream can be read so |
| `Wire.SplitIsFaithful` | internal/ztna/wire.go:321-340 | packets and remainder put together are the stream |
| `Wire.RestIsShort` | internal/ztna/wire.go:321-340 | the remainder is below 65535 bytes |
| `Wire.ChunkingIrrelevant` | internal/ztna/tunnel.go:395-441 | for any chunking into frames of at most 65535 bytes, packets and remainder are those of one split of the whole stream, failure included, and the buffer cap is never reached |
| `Wire.ReadLoop` | internal/ztna/tunnel.go:395-433 | the reading loop computes that |
| `Wire.EncodeDataFrame` | internal/ztna/wire.go:234-259 | the encoded bytes, or the reason for refusing, by the lengths alone |
| `Wire.EncodeAuthRequest` | internal/ztna/wire.go:262-271 | the encoded bytes, or a refusal when the body is too long |
| `Wire.ReadsOneFrame` | internal/ztnatest/fake.go:949-1008 | the server's read of an encoded frame consumes exactly that frame, whatever follows |
| `Wire.InterpretsBack` | internal/ztnatest/fake.go:1010-1036 | the server's parse of what it read gives back token and packets |
| `Wire.FramesRoundTrip` | internal/ztna/wire.go:234-273 | any concatenation of heartbeat, auth and data frames decodes to the same frames |
| `Wire.SendBatches` | internal/ztna/tunnel.go:483-495 | the batches concatenate to the released list in order, each encoded, each of 32 packets but for the last |
| `Checksum.Checksum16` | internal/wireguard/mapping.go:264-276 | the ones'-complement checksum of the bytes, the accumulator wrapping at 32 bits |
| `Checksum.UpdateChecksum` | internal/wireguard/mapping.go:381-387 | the incremental update of section 3 of RFC 1624 |
| `Checksum.UpdatedBalances` | internal/wireguard/mapping.go:381-387 | the update leaves the covered sum unchanged modulo 65535 and never turns another value into 0xFFFF |
| `Checksum.ComplementUnique` | internal/wireguard/mapping.go:264-276 | a value other than 0xFFFF that balances a non-zero sum is the recomputed checksum |
| `Mapper.ParseIPv4` | internal/wireguard/mapping.go:340-360 | an accepted header lies inside the buffer and is a whole number of words |
| `Mapper.HeaderStaysValid` | internal/wireguard/mapping.go:118-125 | the IPv4 header verifies after the rewrite exactly when it did before |
| `Mapper.HeaderStaysExact` | internal/wireguard/mapping.go:118-125 | an exact header checksum stays the exact recomputed value |
| `Mapper.HeaderRoundTrip` | internal/wireguard/mapping.go:118-125 | mapping an exact header there and back restores every byte |
| `Mapper.RewriteFrame` | internal/wireguard/mapping.go:118-180 | the new address is in place; nothing else changes but the checksum fields |
| `Mapper.SegmentStaysValid` | internal/wireguard/mapping.go:132-165 | with the checksum field in the buffer, TCP and UDP checksums verify after the rewrite exactly when they did before, for any payload, seen or in later fragments |
| `Mapper.SegmentVerdictExact` | internal/wireguard/mapping.go:131-165 | wherever the segment ends: one that verified goes on verifying if and only if its field is in the buffer or the addresses have congruent sums, and then no verdict changes |
| `Mapper.ShortFragmentBreaks` | internal/wireguard/mapping.go:132-136 | a 28-byte first fragment that the downlink accepts and whose segment stops verifying, whatever it is made into |
| `Mapper.UDPZeroMeaning` | internal/wireguard/mapping.go:148-165 | a UDP checksum is zero after the rewrite exactly when it was before |
| `Mapper.ICMPStaysValid` | internal/wireguard/mapping.go:203-261 | the whole ICMP message verifies after the rewrite exactly when it did before, however short it is and however much of it is unseen |
| `Mapper.ICMPInnerVerifies` | internal/wireguard/mapping.go:203-261 | a changed inner header verifies |
| `Mapper.ICMPMapsAddresses` | internal/wireguard/mapping.go:203-261 | each inner address that was the mapped one is mapped |
| `Mapper.ICMPFrame` | internal/wireguard/mapping.go:203-261 | nothing changes but the inner addresses and the two checksum fields |
| `Mapper.RewriteKeepsVerdicts` | internal/wireguard/mapping.go:118-261 | for any packet that parses: address and frame, inner header, header checksum, transport verdict with its exact condition, and ICMP verdict together, the inner ones where the bytes show an ICMP error that embeds the address |
| `Mapper.RewriteICMPInnerInPlace` | internal/wireguard/mapping.go:203-261 | the buffer afterwards is the specified packet |
| `Mapper.RewriteAddrInPlace` | internal/wireguard/mapping.go:118-180 | the buffer afterwards is the specified packet |
| `Mapper.Uplink` | internal/wireguard/mapping.go:74-90 | succeeds exactly if the header parses, the source is the peer and there is a tunnel address; then the source is mapped, with frame, inner header and verdicts told by the bytes; otherwise the buffer is untouched and the error says why |
| `Mapper.Downlink` | internal/wireguard/mapping.go:91-108 | succeeds exactly if the header parses, there is a tunnel address and it is the destination; then the destination is mapped, told by the bytes; otherwise the buffer is untouched and the error says why |
| `ServiceModel.AtMostOneLogin` | internal/service/status.go:140-185 | in a good log at most one login is unclosed at every point and no illegal transition occurs |
| `ServiceModel.CodeLeadsToTheSame` | internal/service/service.go:787-822 | signing in by a code leads where signing in without one does, for starts and device operations |
| `ServiceModel.GoodStartRuns` | internal/service/service.go:641-685 | with good answers a start runs on the new login with the endpoints that came up |
| `ServiceModel.OnlyLoginsRun` | internal/service/service.go:600-638 | only a start or a code brings the service up, nothing swaps the login of a running one, and a stop always brings it to rest |
| `ServiceModel.ReportsInForce` | internal/service/service.go:613-627 | losing one endpoint leaves the other on the same login; losing the login or the last endpoint breaks the service |
| `ServiceCore.TeardownLinked` | internal/service/service.go:1088-1130 | teardown ends idle, closes everything the fields hold and revokes generation and round |
| `ServiceCore.FailLinked` | internal/service/service.go:1077-1081 | a failure ends in error with nothing held by the fields |
| `ServiceCore.StartProxyLinked` | internal/service/endpoints.go:83-128 | what a SOCKS start changes for each answer, under a name not used before |
| `ServiceCore.StartL3Linked` | internal/service/endpoints.go:24-63 | what an L3 start changes for each answer, under a generation not used before |
| `ServiceCore.FinishServes` | internal/service/service.go:920-964 | a complete login ends up, or in error with the login closed |
| `ServiceCore.ConnectServes` | internal/service/service.go:657-725 | a login from a clear state ends as the reference machine says, for every answer, with no login left behind |
| `ServiceCore.AuthServed` | internal/service/service.go:787-904 | so do a submitted code and a timeout |
| `ServiceCore.TunnelServed` | internal/service/service.go:1018-1041 | so does the report of a lost tunnel |
| `ServiceCore.SocksServed` | internal/service/service.go:620-627 | so does the report of a lost proxy |
| `ServiceCore.HandleServes` | internal/service/service.go:600-638 | every command leaves a settled state, and the mode the reference machine says, naming new things by names never used before |
| `ServiceCore.RunSettles` | internal/service/service.go:517-537 | between the commands of every run the state is idle, auth_pending, up or error and holds exactly the login it stands for |
| `ServiceCore.OneLoginAlways` | internal/service/service.go:641-1130 | at every step of every run at most one login is unclosed and the transition guard never fires |
| `ServiceCore.RunServes` | internal/service/service.go:517-638 | every run follows the reference machine command by command |
| `ServiceCore.StaleReportInert` | internal/service/service.go:1018-1074 | once an L3 task was stopped or replaced, its reports change nothing, however late |
| `ServiceCore.StaleTimeoutInert` | internal/service/service.go:858-904 | once a waiting round is over, its timeout changes nothing, however late |
| `ServiceCore.Handle` | internal/service/endpoints.go:24-81 | generations and rounds never go back |
| `Service.Actor.constructor` | internal/service/service.go:260-327 | a new service is idle and settled |
| `Service.Actor.StartL3` | internal/service/endpoints.go:24-63 | a task that runs is left alone; otherwise one starts under a generation never used, or none is left |
| `Service.Actor.StopL3` | internal/service/endpoints.go:65-81 | no task ever issued can report any more |
| `Service.Actor.StartSocks` | internal/service/endpoints.go:83-128 | a proxy that runs is left alone; otherwise one that never ran listens, or none is left |
| `Service.Actor.Teardown` | internal/service/service.go:1088-1130 | idle, all logins the fields held closed, no task and no waiting round left |
| `Service.Actor.Fail` | internal/service/service.go:1077-1081 | error, all logins the fields held closed |
| `Service.Actor.FinishConnect` | internal/service/service.go:920-964 | from a complete login: up with exactly it, or error with none, as the reference machine says |
| `Service.Actor.RunDeviceOp` | internal/service/service.go:731-766 | from a login of its own: idle or error, and that login closed |
| `Service.Actor.Connect` | internal/service/service.go:657-725 | from a clear state: the mode the reference machine says for each answer, holding exactly its login |
| `Service.Actor.Submit` | internal/service/service.go:787-822 | from a settled state: the mode the reference machine says for each answer to a code |
| `Service.Actor.TunnelDown` | internal/service/service.go:1018-1041 | from a settled state: a stale report leaves the mode alone, a current one stops L3 or fails, as the reference machine says |
| `Service.Actor.StopEndpoint` | internal/service/endpoints.go:179-199 | from a settled state: that endpoint is gone and the login stays, as the reference machine says |
| `Service.Actor.Execute` | internal/service/service.go:600-638 | from a settled state: every command leads where the reference machine says |
| `Service.Actor.Dispatch` | internal/service/service.go:541-638 | an expired command changes nothing; while closing exactly the five reports are served; with a stop requested exactly start, devices, auth and endpoint-start are discarded; everything else is served as the reference machine says; the state is settled afterwards |
| `Service.Actor.Loop` | internal/service/service.go:517-537 | for any commands, at most one login at any time, only legal transitions, and no login open on exit |
| `StopRace.EscapeNeedsOvertaking` | internal/service/service.go:436-440 | in every interleaving a Stop aims at the running command exactly when that was published before it looked; a command escapes only if another Stop lowered the flag in between |
| `StopRace.NextCommandEscapesIffLowered` | internal/service/service.go:549-598 | between commands, the next one escapes a Stop that has cancelled if and only if the flag is down |
| `StopRace.OverlappingStopsEscape` | internal/service/service.go:907-917 | a concrete run of two overlapping Stops in which a command escapes the second |
| `StopRace.SerialStopsCatchAll` | internal/service/service.go:500-514 | with Stops one at a time and no earlier stop command in the dispatcher's hands, no command escapes in any interleaving |
| `StopRace.StopInHandLetsEscape` | internal/service/service.go:549-598 | whenever a Stop is called while a stop command is in the dispatcher's hands, a run follows in which a command escapes it |
| `StopRace.UnansweredStopEscapes` | internal/service/service.go:463-496 | a concrete run of two Stops one after the other, the first ended by its deadline, in which a command escapes the second |
| `StopRace.AnsweredStopsCatchAll` | internal/service/service.go:463-496 | if every Stop is called only after all earlier ones were answered, no command escapes in any interleaving |
| `Relay.FreeLockQueueCurrent` | internal/wireguard/relay.go:130-190 | whenever bindMu is free, every queued packet belongs to the session in force |
| `Relay.HandedOutWasCurrent` | internal/wireguard/relay.go:334-374 | Read hands out a packet only if its session was in force at the check |
| `Relay.DroppedWithCause` | internal/wireguard/relay.go:200-249 | a packet is counted NoSession or StaleQueue only if its session was not in force when it was dropped, Full only if the queue was full, and for a reader's or mapper's reason only after it had passed |
| `Relay.InstallTakesEffect` | internal/wireguard/relay.go:130-148 | an installation that ends while the relay is open leaves its session in force |
| `Relay.OpenRelayDelivers` | internal/wireguard/relay.go:200-374 | from every reached state with the session in force, the lock free and the queue empty, a new packet can go all the way to the reader |
| `Relay.ClosedForGood` | internal/wireguard/relay.go:455-464 | after Close has returned, the session is nil and the queue empty for ever |
| `Relay.OpenRelayAccounts` | internal/wireguard/relay.go:200-249 | while open, each packet is in hand, queued once, handed out, or counted under exactly one reason, each counter being the number of packets dropped for it |
| `Endpoint.RunLinearizes` | internal/l3/endpoint.go:80-93 | in every interleaving the binding is the fold of the changes in the order of their successful swaps, each call taking effect exactly once |
| `Endpoint.UndisturbedSwapSucceeds` | internal/l3/endpoint.go:80-93 | a swap takes effect unless another change came in since the load |
| `Endpoint.InForce` | internal/l3/endpoint.go:95-118 | a registration is in force exactly if none replaced it and its own removal has not come since |
| `NodeProbe.ReturnSettles` | internal/ztna/node.go:29-89 | on return all workers have ended and every connection is closed but the winner's; a failure leaves none |
| `NodeProbe.FailureMeansAllFailed` | internal/ztna/node.go:68-89 | unless the search was ended from outside, it fails only if every node was dialled and failed; a winner was dialled without error |
| `NodeProbe.RunsAreShort` | internal/ztna/node.go:29-89 | no schedule has more than 8n + 6 steps |
| `NodeProbe.NeverStuck` | internal/ztna/node.go:29-89 | until it has returned, some goroutine can move without waiting for the timeout, so probing always returns |
| `SessionClose.NothingPublishedAfter` | internal/ztna/session.go:553-671 | once Close or invalidate has taken the lock, no tunnel and no stream is published again |
| `SessionClose.CloseLeavesNothing` | internal/ztna/session.go:553-590 | when Close returns, every tunnel and stream ever connected is closed, published or refused, and no start, run or dial is under way |
| `SessionClose.OnlyCalledOffIsRefused` | internal/ztna/session.go:339-347 | a connection once made is refused publication only if the session was closed or cancelled or its own caller gave up |
| `SessionClose.StepKeepsTunnel` | internal/ztna/session.go:425-527 | an unclosed tunnel is always the active one, or in the hands of whoever connected it, of StopL3 or of Close, across reconnects |
| `SessionClose.StepKeepsStream` | internal/ztna/tcp.go:85-165 | an unclosed stream is registered or in the hands of its dial, and after Close took the lock a published one is in the set Close is closing |

## Left out

- Control channel, device binding, TLS and pins (`control.go`, `device.go`, `trust.go`, `auth.go`, `pins.go`): library and server behaviour; their results are arguments of the service's commands.
- Decoding of JSON in resource tables and authorisation responses: the model starts from decoded rules and responses; `parsePortRange`, `targetIPv4` and `candidateNodes` would only add easy members.
- Configuration, IPC, command line, SOCKS5 protocol, dialling and wireguard-go wrappers: files, sockets and bounded handshakes.
- Logging, rate limits, wall-clock formatting, status texts and the recovery from panics in dispatch; the transition guard that would panic is proved never to fire.
- Goroutines in `relay.go`, `node.go`, `session.go`, `tcp.go`, `endpoint.go` and the Stop race are modelled on values, as transition systems, so updates in place are not captured there; critical sections and single atomic operations are single steps.
- Slices and buffers shared between goroutines are not modelled; packets are values.
- The order on the wire between packets released by `completeAuth` and a concurrent `Send`, which write outside the table's lock, is not modelled.
- Liveness is proved for node probing alone; elsewhere the theorems are about safety.
- `Resource.StableSort`: insertion stands for `slices.SortStableFunc`; only the result matters.
- `Wire.EncodeAuthRequest`: the JSON body is any byte sequence.
- `SessionClose.CloseLeavesNothing`: assumes what the callers ensure, that starts and stops of L3 are serial and that StopL3 does not overlap Run or Close.
- `Service.Actor.Connect`: the bearer object and the watcher of the session's end are not fields; their effects are the answers and the SessionEnded command.
- `Tunnel.TunnelConn.Send`: the wake-up of the authorising goroutine is not modelled.
- `Mapper.SegmentVerdictExact`: says nothing of a segment that ends in the middle of its checksum field while the buffer goes on, which no fragment layout and no exact buffer produces.
- `Mapper.ICMPStaysValid`: the message fills the buffer or is long enough to embed a header; bytes behind a shorter message are not modelled.
- `NodeProbe.NeverStuck`: a dial under way counts as a step that can be taken; that the dialling library returns is assumed.
