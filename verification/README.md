# networks-p2: a verified model

The repository holds a BitTorrent-like peer that moves 512 KiB chunks over UDP, its SHA-1 code, and a network
emulator that routes the peers' packets. This project models these parts in Dafny and proves what they are for.

- **Chunk transfer** (`Reassembly`, `Chunks`, `Upload`, `UploadList`, `Transfer`). A chunk is cut into numbered
  packets. The receiver keeps a linked list with placeholders, acknowledges the gapless prefix and counts bytes.
  The sender keeps a doubly linked list of uploads with window control, and deletes from it while walking.
  `Transfer` puts both ends over a network that loses, duplicates and reorders: whatever the sender believes
  acknowledged has arrived, and when it is done the receiver holds the chunk byte for byte.
- **Downloads** (`Deliveries`, `Pictures`, `Runs`, `RunLaws`, `Download`, `DownloadRuns`, `Ihave`). Peers and chunks point at
  each other or not at all through GET, DATA, IHAVE, timeouts and finishing; a freed list is not read; a finished
  download leaves no peer with a chunk. `Pictures` says what each handler makes of the whole state, as a value; the
  methods of `Download` are proved to do exactly that to the objects, `DownloadRuns.Turns` that every run of the main
  loop is a run of these values, and `Runs` and `RunLaws` what holds of all such runs: nothing is filed or stored
  without a request and a chain of packets, what a transfer comes to is decided by its own packets only, and the
  counters and clocks tell what they tell.
- **SHA-1** (`Fips180`, `Sha1`, `KnownAnswer`). The streaming context, in the simple and the fast form, against
  FIPS 180-4, and the standard as written here against its sample message.
- **Router emulator** (`Graphs`, `Dijkstra`, `Traffic`, `Hupsim`). Routing tables built independently on shared
  records lie on shortest paths, so forwarding has no loops, and the work list that refills itself runs dry; no
  packet is lost track of, and each link delays its packets as its rate and latency say.
- **Line splitter** (`LineBuffer`). Lines do not depend on where the reads fall, and exactly when the shifting
  buffer leaves nothing behind.

The classes follow the C and Perl records; each method is proved against a function on values, and the results
are lemmas about those functions and invariants that every method keeps. `Upload.Pass`, `Upload.Ack` and
`Reassembly.Add` are the functions that the methods of `UploadList` and `Chunks` are proved to compute, and the
steps of `Transfer` are made of the same ones.

## Where the code differs from its documentation

- readme.txt says that the next packet is sent again after three acknowledgements in a row and that a sender
  quits after five losses. In peer.c the duplicate count is not cleared (line 245) and the loop looks at the same
  upload again (line 273), so two duplicate acknowledgements always end the upload within one pass:
  `Upload.DiesExactly` gives the exact condition, `Upload.Pass` how many copies are queued before that, and
  `Transfer.LostPacketEndsUpload` an honest run in which one lost packet ends an upload in this way.
- readme.txt says that a peer is bad after five timeouts. The clock of a late peer is not restarted, so each pass of
  the main loop counts it once more: `Deliveries.ReleasedExactly` and `Runs.SilentTurns` state after how many
  passes it is released, whatever time lies between them, and `Deliveries.FiveQuickChecks` shows five milliseconds.
- send_get restarts the list but not the byte count (peer_receiver.c:169-190). After a transfer that failed at its
  end the count is already full, and the next transfer of that chunk is called finished at its first packet.
  `Reassembly.EarlyFinish` states for every starting count whether the completion rule can go wrong,
  `DownloadRuns.NextTransferIsSafe` for every reachable state, and `DownloadRuns.FailedTransfer` runs into it.

- The usage text says that -m is the maximum number of downloads (bt_parse.c:58), but send_get raises this maximum and
  not the number in use (peer_receiver.c:171-173). `RunLaws.CountersTell` says what the two come to in every run, and
  `RunLaws.LimitNeverBinds` that they never stop a request.

## Where the code fails without saying so

No document promises more for these; the exact conditions are proved all the same.

- send_ihave stores the number of hashes in a signed char. `Ihave.PagingRoundTrip` shows that the call returns
  normally exactly for at most 127 hashes. Its only caller, process_whohas, counts with a signed char itself
  (peer_sender.c:16-31), so it never passes on more.
- peer_cc does not clear the count of acknowledgements that congestion avoidance keeps. `Upload.GrowthAfterLoss` states
  the exact condition under which the window grows past the threshold again after a loss; if it does not hold the
  window stays where it is.
- The line splitter keeps old bytes behind the input when long lines meet a full buffer.
  `LineBuffer.UserBuf.ProcessUserInput` states exactly when; `LineBuffer.LongLineOverlaps` gives such a read.
- The emulator keeps a rate below 8 bits per second as 0 bytes per second and divides by it at the first packet.
  `Hupsim.NSQueue.EnQ` states exactly when, and `Hupsim.Network.Drain` and `Hupsim.Network.Accept` that this and a
  packet for a node that is no router are all that ends the program.

## Model

| member | source | states |
|---|---|---|
| Graphs.DistBelowNodeCount | hupsim.pl:73 | every hop distance is below the number of routers, so the constant that stands for infinity is never a real distance |
| Graphs.ConnectedFrom | hupsim.pl:381-382 | because every link also has its way back, a map in which one router reaches all is one in which each reaches each |
| Dijkstra.PickIsLeast | hupsim.pl:249-259 | the selection loop finds an unvisited router of least distance, the first one among equals, and none only if all are visited |
| Dijkstra.RelaxOnlyShortens | hupsim.pl:261-272 | only a link that shortens the way changes a router's labels, so the first of several equally short ways stays |
| Dijkstra.RelaxKeepsVisiting | hupsim.pl:261-272 | relaxing one link keeps all labels sound and lowers no visited router |
| Dijkstra.VisitKeepsSound | hupsim.pl:247-274 | one turn of the outer loop keeps the labels sound and visits exactly one more router |
| Dijkstra.RunComputesDist | hupsim.pl:226-274 | in a connected topology of at most 65535 routers the final distances are the true least hop counts |
| Dijkstra.FirstHopReaches | hupsim.pl:278-282 | the walk along predecessors ends one link from the source, on a walk of the labelled length |
| Dijkstra.NextHopIsCloser | hupsim.pl:226-288 | the next hop in a router's own table is a neighbour that is exactly one hop nearer to the destination |
| Dijkstra.RouteIsShortest | hupsim.pl:150-189 | forwarding by independently built tables follows links, repeats no router, and arrives after exactly the shortest distance |
| Traffic.QueueWorkAppend | hupsim.pl:58-68 | a packet that is queued adds one link plus the distance that is left beyond it |
| Traffic.LinkWorkUpdate | hupsim.pl:191-224 | changing one queue changes the total of remaining links by exactly that queue's change |
| Traffic.OnLinksUpdate | hupsim.pl:191-224 | changing one queue changes the packets on all links by exactly that queue's change |
| Traffic.SumUpdate | hupsim.pl:116-125 | one link's count changes the total number of drops by exactly its own change |
| Traffic.ZeroIsLocal | hupsim.pl:156-160 | a packet for 0.0.0.0 goes where one for 127.0.0.1 goes, any other to the node with its address and port |
| Hupsim.NSQueue.constructor | hupsim.pl:11-30 | a new link is empty, sends an eighth of the given bits per second in bytes, has the given latency, and holds at most the given number of packets, ten by default |
| Hupsim.NSQueue.EnQ | hupsim.pl:47-69 | a full queue counts one drop and nothing else; with room the packet is accepted at the tail, due after the latency, its own bytes at the link's rate and those of the bytes ahead, or the division fails exactly for rate 0; size stays the sum of the lengths |
| Hupsim.NSQueue.DeQ | hupsim.pl:208-210 | the head, which is due, leaves, the rest keeps its order, and size follows |
| Hupsim.NSQueue.Fifo | hupsim.pl:47-69 | what has left a link is a prefix of what it accepted, and the rest is what is queued |
| Hupsim.NSQueue.NeverEarly | hupsim.pl:47-69 | no packet is faster than its link: between its arrival and its departure lie at least the latency and the time for the bytes that were ahead of it and its own |
| Hupsim.NSRouter.AddRoute | hupsim.pl:137-148 | a fresh empty queue towards the neighbour, with the given rate, latency and bound, replaces whatever was stored at its identifier |
| Hupsim.SetBaseState | hupsim.pl:236-245 | the shared records show the starting labels, whatever they held before |
| Hupsim.PickNext | hupsim.pl:249-259 | the loop over the records finds the router that the value-level selection names |
| Hupsim.RelaxRoutes | hupsim.pl:261-272 | after the edge loop the records show all relaxations of the visited router |
| Hupsim.VisitAll | hupsim.pl:247-274 | after the outer loop the records show the final labels; each turn finds a router to visit |
| Hupsim.WalkBack | hupsim.pl:278-282 | the predecessor walk terminates and stops at the first hop |
| Hupsim.NSRouter.CreateTable | hupsim.pl:226-288 | the table holds for every other router the queue to its next hop and nothing else, independently of stale distance, done and predecessor fields |
| Hupsim.NSRouter.Recv | hupsim.pl:150-189 | a packet is delivered at its own router, ignored without a known address, fatal exactly when its node is no router or the link has rate 0 and room, and otherwise put on the link of this router's table, or counted by that link as dropped when it is full; it is due there as `JoinedMeans` says for the time of its arrival, and no other queue changes; only links of routers that join the work list change |
| Hupsim.Network.JoinedMeans | hupsim.pl:58-68 | a packet that joins a link is its last and due after latency, its own bytes and the bytes ahead at the link's rate, counted from the time of its arrival; a full link and one of rate 0 stay as they are |
| Hupsim.NSRouter.Hop | hupsim.pl:208-213 | the head of this link and no other packet crosses it: it is delivered at the router that the link leads to, or is the last on the link that this router's table names, or is counted there as dropped; it joins that link at the time that the clock shows after it has left this one, at which it was due; no other queue changes; nothing is lost track of and the links still to be crossed become strictly fewer |
| Hupsim.NSRouter.DrainLink | hupsim.pl:206-213 | the inner loop ends, with the queue empty or its head not due at the last reading of the clock; other links change only if their routers join the work list |
| Hupsim.NSRouter.Run | hupsim.pl:191-224 | unless this router has joined the work list meanwhile, every link of it is left empty or with a head later than a reading of the clock in this run, and the wait is exactly the least time left; links of other routers change only if these join the list; either the links still to be crossed become fewer or the list is unchanged |
| Hupsim.NextHopSavesOne | hupsim.pl:172-189 | every router's own table shortens a packet's remaining distance by one |
| Hupsim.WithLinkSymmetric | hupsim.pl:381-382 | each line of the map adds its link in both directions and keeps all links two-way |
| Hupsim.Network.AddLink | hupsim.pl:366-383 | reading one line creates missing routers and adds exactly that link both ways, with empty queues, the line's rate in bytes, its latency and its bound, ten for 0; every other link keeps what it had; all links stay two-way |
| Hupsim.Network.TopologyRoutable | hupsim.pl:366-389 | a loaded map of at most 65535 routers in which one router reaches all is fit for routing |
| Hupsim.Network.CreateTables | hupsim.pl:386-389 | after all routers have run on the shared records every table is right, the earlier ones included |
| Hupsim.Network.Start | hupsim.pl:366-389 | a loaded map in which one router reaches all yields a network with right tables, empty queues and balanced books, whatever the rates |
| Hupsim.Network.Accept | hupsim.pl:424-430 | a packet from outside is booked exactly when its entry router exists and its destination is a router; every injected packet is then delivered, counted as dropped by a link, or in one queue; the packet joins its first link at the time that the clock shows; the program ends for a node that is no router, or at a link of rate 0 |
| Hupsim.Network.Drain | hupsim.pl:436-451 | the work list runs empty although forwarding refills it; then every link is empty or its head is later than a reading of the clock in this drain, and the sleep is positive and not longer than what was left of that time; every injected packet is still delivered, counted as dropped by a link, or in one queue |
| Fips180.Pad | sha.c:536-543 | padding ends on a block boundary |
| Fips180.WordRoundTrip | sha.c:80-89 | a word written in four bytes, the most significant first, is read back |
| Fips180.BytesRoundTrip | sha.c:80-89 | four bytes read as a word and written again are the same bytes |
| KnownAnswer.SampleDigest | sha.c:31-38 | the digest of the first sample message, "abc", is the one that the file promises |
| Sha1.RotationsAgree | sha.c:49-50 | shifting left and right by amounts that add up to 32 rotates, for all amounts in use |
| Sha1.WordOfDigits | sha.c:80-89 | the big-endian word of four bytes is the number with these digits |
| Sha1.BytesOfDigits | sha.c:545-556 | the big-endian bytes of a word are its digits |
| Sha1.NextWordIsMix | sha.c:184-200 | the word that the cursors compute is the one of the message schedule |
| Sha1.SwapLoad | sha.c:80-89 | reading a word in host order and swapping it on little-endian hosts gives the big-endian word |
| Sha1.StoreSwap | sha.c:545-556 | swapping and writing a word in host order gives its big-endian bytes |
| Sha1.StoredLength | sha.c:84-89 | the swapped 64-bit counter is stored as the big-endian message length on either kind of host |
| Sha1.FunctionsAgree | sha.c:52-55 | the cheaper bit formulas are the functions of section 4.1.1 of FIPS 180-4 |
| Sha1.RoundStep | sha.c:57-69 | the round macro with each group's function and constant is the round of section 6.1.2 |
| Sha1.AbsorbAppend | sha.c:453-523 | hashing full blocks in two portions is hashing them in one |
| Sha1.FeedFeed | sha.c:453-523 | how the input is cut between calls makes no difference to hash, waiting bytes and bit count |
| Sha1.FeedAllIsFeed | sha.c:453-523 | any sequence of updates is one update with the concatenation |
| Sha1.PaddingIsPad | sha.c:536-543 | the padding arithmetic yields the padding of section 5.1.1 for every length |
| Sha1.StreamedDigest | sha.c:149-558 | for any pieces of a message under 2^64 bits the final state is on a block boundary and its bytes are the digest of the whole message |
| Sha1.SHA1Context.Init | sha.c:149-163 | the context is as before any input, whatever it held |
| Sha1.SHA1Context.Expand | sha.c:184-200 | the four moving cursors compute the message schedule |
| Sha1.SHA1Context.AllRounds | sha.c:202-224 | the four loops compute the eighty rounds |
| Sha1.SHA1Context.Guts | sha.c:176-451 | the hash words become the compression of the old ones with the block |
| Sha1.SHA1Context.TakeIn | sha.c:503-521 | filling the buffer and hashing it when full is taking in those bytes, from every context |
| Sha1.SHA1Context.Update | sha.c:501-523 | the default loop takes in the data, from every context |
| Sha1.SHA1Context.UpdateFast | sha.c:461-500 | the fast-copy form ends, from every context and for every input, in the same hash words, counter and waiting bytes as the default form |
| Sha1.SHA1Context.Final | sha.c:529-558 | the length is captured before padding; the 20 bytes written are those of the closed state, and nothing else is written |
| Sha1.ShaHash | chunk.c:33-49 | the digest of a buffer is its SHA-1 |
| Reassembly.SlotBytesPlaced | bt_parse.c:253-276 | a newly stored packet adds exactly its length to the bytes in the list, placeholders add nothing |
| Reassembly.AddKeepsSensible | bt_parse.c:216-287 | filing a packet keeps next_expected, the byte count and the shape of the list in agreement |
| Reassembly.FirstCounts | bt_parse.c:216-287 | for every packet sequence, even one that contradicts itself: a node is received exactly when its number occurred, with the data that came first, and the counters fit the list |
| Reassembly.Reassembled | bt_parse.c:216-287 | for every consistent packet sequence: a node is received exactly when its packet occurred, with its data, and the list ends at the highest number |
| Reassembly.NextIsLeastMissing | bt_parse.c:278-286 | next_expected is the least number that has not occurred, for every packet sequence |
| Reassembly.OrderIndependent | bt_parse.c:216-287 | two consistent sequences of the same packets, in any order and multiplicity, leave equal records |
| Reassembly.SendData | peer_sender.c:204-232 | the slicing loop yields exactly the numbered slices, the last one short |
| Reassembly.CountBound | peer_sender.c:211-225 | counted bytes reach the offset of the list's end exactly when there is no gap |
| Reassembly.CountDecides | peer_receiver.c:210-215 | the count equals the chunk length exactly when every packet has arrived, never exceeds it, and then the list joins to the chunk |
| Reassembly.RoundTrip | peer_sender.c:204-232 | slice, lose, repeat, reorder, reassemble: the total is full exactly when all packets arrived, and then the bytes are the original ones |
| Reassembly.EarlyFinish | peer_receiver.c:169-180 | for a full chunk the completion rule is right for every arrival sequence if and only if the count starts below the size of the last packet |
| Chunks.Chunk.constructor | bt_parse.c:306-327 | a new chunk has an empty list, expects packet 1 and has no peer |
| Chunks.Chunk.Find | bt_parse.c:236-249 | the search stops at the packet's node, or at the end with the last node |
| Chunks.Chunk.Extend | bt_parse.c:251-275 | placeholders and then the packet are linked behind the last node, the old nodes stay |
| Chunks.Chunk.GottenUpto | bt_parse.c:278-285 | the last loop finds the end of the gapless prefix |
| Chunks.Chunk.AddPacketList | bt_parse.c:216-287 | the pointer code files a packet as the value function does, duplicates included, and keeps the list well linked |
| Chunks.Chunk.WriteToBuffer | peer_receiver.c:514-522 | the copy succeeds exactly without placeholders and within the buffer, and then the buffer starts with the joined packets |
| Upload.AckKeepsSteady | peer_sender.c:288-316 | an honest acknowledgement keeps window_size at least 1, ssthresh at least 2, and the avoidance flag equal to window_size exceeding ssthresh |
| Upload.PassKeepsSteady | peer.c:229-282 | so does a pass of congestion control, with or without losses |
| Upload.RetryUnfolds | peer.c:241-274 | looking at the same upload again after a loss reaction is accounted for by the closed form, and the drop count grows |
| Upload.DiesExactly | peer.c:242-263 | an unfinished upload ends in a pass if and only if it has two duplicates, or is overdue with five drops already |
| Upload.SurvivorIsHealthy | peer.c:229-282 | a surviving upload is unfinished, on time, has fewer than two duplicates and at most five drops |
| Upload.QueuedAreReal | peer.c:201-224 | every queued number is a packet of the upload; a loss-free batch is exactly the unacknowledged packets of the window |
| Upload.EventSpendsBudget | peer.c:233-274 | six per missing packet less the drops pays for every loss reaction and every advancing acknowledgement |
| Upload.BoundedEffort | peer.c:233-274 | over every run window control holds, and an upload of n packets sees at most 6n such events |
| Upload.CountersStaySmall | peer_sender.c:288-295 | with a pass before each packet, as in the main loop, the 8-bit counters stay within 2 and 5 |
| Upload.WindowGrowth | peer_sender.c:301-316 | without losses the window is 1 + n for n < 64 acknowledgements, and then w(w-1)/2 + recvd = 2080 + (n - 64) with recvd < w |
| Upload.GrowthIsUnique | peer_sender.c:308-316 | that equation has one solution, so it determines the window |
| Upload.FirstPass | peer.c:276-279 | a new upload is not overdue at any time and sends packet 1 alone |
| Upload.OverdueFromSixSeconds | peer.c:251 | an upload is overdue from six seconds after it last sent |
| Upload.AckForgives | peer_sender.c:288-295 | an acknowledgement that advances clears the drop count, any other leaves it; what was sent and when stays |
| Upload.LossHalves | peer.c:241-274 | an overdue upload that survives has half its window as the threshold, at least two, a window of one, and has sent the first unacknowledged packet again |
| Upload.NoLossNoChange | peer.c:276-281 | without a loss a pass changes nothing until all that was sent is acknowledged, and then sends exactly the next window |
| Upload.AvoidanceGrowth | peer_sender.c:309-316 | in congestion avoidance every full window of acknowledgements adds one if fewer than a window are counted, and otherwise the window never grows again |
| Upload.GrowthAfterLoss | peer.c:266-274 | after a loss the window grows by one per acknowledgement to one above the threshold, and beyond that by the same equation if and only if no more acknowledgements than the threshold had been counted before the loss |
| Upload.DuplicatesCounted | peer_sender.c:288-295 | over every run with passes between the acknowledgements: last_acked is the highest number acknowledged, and retransmit is how often that number came again, as a signed 8-bit number |
| UploadList.Uploads.AddSenderList | bt_parse.c:358-382 | the new upload is linked in front with its starting counters |
| UploadList.Uploads.FindSenderList | bt_parse.c:387-396 | the first upload to the peer is found, or there is none |
| UploadList.Uploads.DelSenderList | bt_parse.c:402-421 | the node is unlinked, forward and backward pointers stay in agreement, the order stays |
| UploadList.Uploads.ProcessGet | peer_sender.c:116-140 | a request is accepted exactly from a known peer without an upload, with a 20-byte hash, for an owned chunk of which something can be read and whose hash is that one; so there is at most one upload per peer |
| UploadList.Uploads.SendFile | peer_sender.c:153-243 | an upload of the bytes read starts exactly if there are some and the buffer's SHA-1 is the requested hash |
| UploadList.Uploads.ProcessAck | peer_sender.c:269-318 | only the acknowledging peer's upload changes, by the acknowledgement function, whose counters `Upload.DuplicatesCounted` and `Upload.AckForgives` fix |
| UploadList.Uploads.PacketSender | peer.c:201-224 | the loop queues the packets of the window in order and records what was sent |
| UploadList.Uploads.CcStep | peer.c:231-282 | each turn of the loop keeps the final result in sight and either leaves an upload behind or raises its drop count up to five, which is why the pass ends |
| UploadList.Uploads.PeerCc | peer.c:227-283 | a pass replaces each upload by its closed form or removes it, queues exactly the closed form's packets, and keeps the list well linked; `Upload.LossHalves`, `Upload.NoLossNoChange` and `Upload.DiesExactly` say what that form is |
| UploadList.SurvivorsAreHealthy | peer.c:227-283 | after a pass every upload in the list is unfinished, on time, without two duplicates and with at most five drops |
| UploadList.SurvivorsOnePerPeer | peer.c:227-283 | deletion neither duplicates uploads nor invents peers |
| UploadList.SurvivesExactly | peer.c:229-263 | an upload is still there after a pass if and only if it is unfinished, has fewer than two duplicates, and is not overdue by six seconds with five drops already |
| UploadList.QueuedInTurn | peer.c:201-224 | a pass queues for each upload in turn, in order, exactly the packets that its closed form names, all of them unacknowledged packets of that upload |
| Transfer.PassKeeps | peer.c:227-283 | what the sender puts on the network has numbers up to the highest ever sent, within the chunk |
| Transfer.DataKeeps | peer_receiver.c:462-488 | a delivered packet keeps every node genuine and acknowledges no more than the gapless prefix |
| Transfer.AckKeeps | peer_sender.c:288-295 | a delivered acknowledgement never makes the sender believe more than has arrived |
| Transfer.EndToEnd | peer.c:227-283 | in every state of every run: last_acked <= gapless prefix <= highest sent <= number of packets; a finished sender means the receiver holds exactly the chunk; a full chunk is called finished only then |
| Transfer.LostPacketEndsUpload | peer.c:233-263 | the run itself, of eight events without a timeout: packet 2 is never delivered, packet 3 is, the acknowledgement that repeats 1 comes twice, and the next pass ends the upload unfinished |
| Ihave.SendIhave | peer_sender.c:65-103 | the paging loop queues exactly the pages of the list, or fails or repeats for ever as stated |
| Ihave.PageLayout | peer_sender.c:73-92 | a page is the count, three zero bytes and the hashes in order |
| Ihave.DecodedExactly | peer_receiver.c:120-163 | of any payload nothing is read when the count byte is negative as a signed char, otherwise as many hashes as it says; it is called too short exactly when there is no room for them, and then those that fit are read |
| Ihave.PageDecodes | peer_receiver.c:120-163 | the receiver reads back the hashes of a page and its length checks pass |
| Ihave.PagingRoundTrip | peer_sender.c:65-103 | the call returns normally if and only if there are at most 127 hashes; then no packet exceeds 1500 bytes and decoding returns the hashes in order |
| Download.Config.PeerWithAddr | bt_parse.c:482-495 | the first peer with the address is found, or there is none |
| Download.Config.ResetPeers | bt_parse.c:501-512 | no peer has a chunk, is awaited, late or bad |
| Download.Config.SendGet | peer_receiver.c:169-190 | the state changes exactly by this: peer and chunk point at each other, the list starts afresh, the byte count stays and becomes the count that the transfer starts from, max_conn grows and the GET is queued; with too many connections nothing changes |
| Download.Config.TimeoutOne | peer_receiver.c:13-32 | the peer's lateness, badness, last response and chunk change as the check on values says; its chunk is given up exactly when it is released |
| Download.Config.TimeoutCheck | peer_receiver.c:4-35 | the whole state afterwards is the checked one: every peer is checked once, the chunks of released peers start from zero the next time, and nothing else changes |
| Deliveries.ReleasedExactly | peer_receiver.c:14-19 | a silent peer is released, and bad from that check on, if and only if enough checks have found it late: five less the lateness it had, and at least one |
| Deliveries.LateFromThenOn | peer_receiver.c:15-16 | over checks at non-decreasing times all from the first late one on are late, so their number decides and not the time between them |
| Deliveries.FiveQuickChecks | peer_receiver.c:14-19 | five checks within five milliseconds release a peer that was asked once |
| Deliveries.LateAfterFifteenSeconds | peer_receiver.c:14-15 | a peer is late from one millisecond after fifteen seconds on |
| Deliveries.FiveAllowed | peer_receiver.c:16-18 | four late checks in a row are survived |
| Pictures.BadForThirtySeconds | peer_receiver.c:37-40 | a bad peer is one that was called bad less than thirty seconds ago |
| Runs.SilentTurns | peer.c:332-333 | in every run, a peer that has been asked and of which nothing is heard for k turns either still has its chunk and one more late check for every late turn, or one of these turns has taken the chunk from it and called it bad from then on; the number of late checks decides which |
| Download.Config.AskFor | peer_receiver.c:341-359 | the whole state afterwards is that of one request: a chunk without a peer goes to the first listed peer that is idle and not bad; when all listed peers are bad a WHOHAS goes to everybody; otherwise nothing changes |
| Download.Config.GetAllTheThingz | peer_receiver.c:323-362 | the whole state afterwards, messages and counters included, is that of one request per chunk in the order of the list |
| Runs.RequestsMean | peer_receiver.c:323-362 | what these requests come to: every chunk keeps its state, or had no peer and is now delivered by a peer noted for it, with its GET among the new messages; busy peers are left alone; and while max_conn is not reached, no wanted chunk is left with a free peer |
| Runs.NeverFromBadPeers | peer_receiver.c:347-352 | in every turn of every run a GET goes only to a peer that delivers nothing and is not bad, as readme.txt promises |
| RunLaws.CountersTell | peer_receiver.c:169-190 | in every run max_conn is what it was plus the GETs queued since, and cur_download is what it was less the transfers that are over |
| RunLaws.LimitNeverBinds | peer_receiver.c:171-173 | so whoever may open one connection may open any number |
| RunLaws.FloodedExactly | peer_receiver.c:63-104 | once fifteen seconds have passed, and not before, every other peer gets a WHOHAS with all hashes, the count in 8 bits and the length in 16 |
| RunLaws.FloodsApart | peer_receiver.c:67-71 | in every run on a clock that does not go back, two turns in which everybody is asked are at least fifteen seconds apart |
| RunLaws.LatestIsAsked | peer_receiver.c:135-158 | the free peer whose IHAVE came last gets the next request for a chunk it names, late or bad as it may have been before, and has five late checks again |
| RunLaws.FilingAcknowledges | peer_receiver.c:195-206 | a filed packet is acknowledged with the number up to which the transfer has no gap, even if packets contradict each other |
| RunLaws.NumbersFiled | peer_receiver.c:462-488 | numbers below 1 and above 524288 are refused and change nothing but the peer's watch |
| Download.Config.FilePacket | peer_receiver.c:195-206 | filing a packet changes one chunk's record by the value function and adds to its history; every other chunk keeps record, peer and history |
| Download.Config.CheckChunk | peer_receiver.c:255-268 | the joined packets are hashed and compared; a list that cannot be copied is reported |
| Download.Config.FinishChunk | peer_receiver.c:246-315 | the peer is released first; the record and the hash decide, and the chunk is downloaded exactly if the hash matches; the download ends exactly if all other chunks are downloaded already; no other chunk changes |
| Download.Config.DelReceiverList | bt_parse.c:340-353 | when all chunks are counted as downloaded the list can go: no peer points at a chunk, and every packet list is freed |
| Download.Config.ProcessData | peer_receiver.c:462-488 | the whole state afterwards: a packet is ignored without a transfer from its address, only noticed out of range, otherwise filed and acknowledged up to the first gap; the outcome is the one that the history of the transfer decides, and the last chunk, and no other, ends the download |
| Deliveries.HonestTransfer | peer_receiver.c:195-217 | a filed packet whose transfer started from zero and has genuine packets stores the chunk exactly when it is the last missing one |
| Deliveries.SpoiledTransfer | peer_receiver.c:210-215 | a transfer that starts from a full count is over with any packet |
| DownloadRuns.Turns | peer.c:306-355 | every run of main-loop turns with DATA and IHAVE packets from all peers is, state by state from the present one to the final one, a run of the values in `Runs`; it stops early exactly at an IHAVE from an unknown sender or without a payload |
| DownloadRuns.FreshDownload | peer.c:125-156 | a download starts in a state that the empty log accounts for |
| Runs.RunsAreSound | peer.c:306-355 | in every state of every run peers and chunks point at each other or not at all, and a response is awaited exactly from a peer with a chunk |
| Runs.RunsAreAccounted | peer.c:306-355 | in every state of every run: each filed packet answers a GET to its sender and continues a chain of filed packets from that peer; a chunk being delivered has exactly the packets of its chain; a chunk counted as downloaded was owned or stored by a filed packet; a count is left behind only by a transfer that failed at its end |
| Runs.OwnTurn | peer_receiver.c:462-488 | each filed packet has a turn of its own, in the order of filing: the one in which it came in from the address that is noted |
| Runs.HonestRuns | peer_receiver.c:195-217 | in every run a transfer with genuine packets is decided exactly by its last missing packet and stores the chunk, unless it started from a count left behind, and then its first packet ends it |
| DownloadRuns.NextTransferIsSafe | peer_receiver.c:169-180 | for a chunk without a peer in every reachable state the completion rule is right for all arrivals if and only if no failed transfer has left its count |
| DownloadRuns.FailedTransfer | peer_receiver.c:263-268 | a whole run from the user's request on: the 354 packets of a chunk with another hash are filed one by one, the last with a mismatch, and the chunk is asked for again and starts from the full count |
| Download.Config.NoteHash | peer_receiver.c:135-158 | the peer is noted in front for the first chunk with the hash and for no other |
| Deliveries.FirstHasHash | peer_receiver.c:135-158 | the chunk found has the hash and none before it has; if none is found none has it |
| Deliveries.FirstHasAddr | bt_parse.c:482-495 | the peer found has the address and none before it has; if none is found none has it |
| Deliveries.NotedOncePerHash | peer_receiver.c:135-158 | the sender of an IHAVE is noted for a chunk as often as the hashes name it |
| Download.Config.ProcessIhave | peer_receiver.c:108-164 | the whole state afterwards: outside a download nothing happens, an unknown sender is a null pointer, an empty payload is read past its end; otherwise the sender is good again and is noted once per decoded hash, up to where a short packet ends |
| Download.Config.SendWhohas | peer_receiver.c:63-104 | all hashes go to every other peer, at most once in fifteen seconds, with the 8-bit count and the 16-bit length that the code writes |
| Deliveries.FloodReaches | peer_receiver.c:63-104 | every peer but the sender itself gets a WHOHAS and nobody else does, with the count modulo 256 and the length modulo 65536 |
| Download.Config.AddReceiverList | bt_parse.c:306-335 | the chunk is appended, and owned chunks count as downloaded |
| Download.Config.UserGet | peer.c:125-156 | the list is the chunk file in order, nobody delivers, no count is left behind, and everybody is asked for all of it; the download is over at once exactly if everything is owned |
| LineBuffer.SplitResumes | input_buffer.c:47-53 | splitting may stop at any byte and go on with the unfinished line |
| LineBuffer.BoundariesDoNotMatter | input_buffer.c:22-55 | the lines over all reads are those of the concatenated stream, and so is the tail |
| LineBuffer.ShiftCleans | input_buffer.c:50-52 | moving the rest down leaves zeros behind it if and only if there were zeros and line plus input fit the buffer |
| LineBuffer.HalfFits | input_buffer.c:40-53 | at most half a buffer of input always fits |
| LineBuffer.LongLineOverlaps | input_buffer.c:40-53 | a first read of 8001 NUL-free bytes after which the buffer is not clean |
| LineBuffer.UserBuf.constructor | input_buffer.c:6-20 | a new buffer is empty and all zero |
| LineBuffer.UserBuf.StrChr | input_buffer.c:47 | the search finds the first newline of the input and nothing behind it |
| LineBuffer.UserBuf.Shift | input_buffer.c:48-52 | the first line is taken off and the rest stays in order |
| LineBuffer.UserBuf.ProcessUserInput | input_buffer.c:22-55 | all complete lines are handed out and the tail is kept; the bytes past it stay zero if and only if every shift fits |
| LineBuffer.HalvesFit | input_buffer.c:22-55 | a run that stays within half a buffer meets the condition of every shift |
| LineBuffer.Session | input_buffer.c:22-55 | over a whole run in which every read finds room and every shift fits the lines are the newline split of the stream, with zeros behind the tail |

## Left out

- Sockets, the select loop, spiffy.c, command line, peer and chunk files, debug output: times, packets, read
  bytes, ownership of chunks and hash-file contents are parameters; opening the hash and output files succeeds.
- peer_ihave.c and peer_whohas.c, which are not built, and try_to_get, which is not called.
- The list of hashes that process_whohas builds: `Ihave.SendIhave` starts from an arbitrary list.
- The file copying of finish_get: only the end of the download is modelled.
- Peers, the chunk list and the peers noted for a chunk are linked lists in C that are only appended to,
  prepended to and walked; they are sequences of objects here. The packet list and the upload list keep their
  pointers.
- The packet array of an upload is a sequence that does not change after it is built; missing packets and
  failed allocations do not occur, except in send_ihave.
- UploadList.Uploads.PeerCc: time(NULL) is read once per pass, so the clock does not advance within a pass.
- Upload.Ack: window sizes are unbounded integers, and acknowledgement numbers of 2^31 and above, which no
  receiver of this code sends, are not wrapped to negative.
- Transfer.EndToEnd: one transfer from its GET on, with honest ends; packets carry no transfer identifier, so
  late packets of an earlier transfer of another chunk are not covered. After GiveUp the receiver's record is a
  history, as the list itself is freed.
- Download.Config.UserGet: requires that no download is under way, as vulnerabilities.txt demands.
- Download.Config.ProcessIhave: the null pointer of an unknown sender and the read past an empty payload are
  reported, and the model stops there.
- DownloadRuns.Turns: one download, from a request until it ends; GET, ACK and WHOHAS packets of the upload side
  come from other modules and touch none of this state.
- Chunks.Chunk.WriteToBuffer: copying a placeholder is undefined in C; the model reports it and stops there.
- LineBuffer.UserBuf.ProcessUserInput: when old bytes directly follow the input the model reports it and stops.
- Sha1.SHA1Context.AllRounds: one loop per group of rounds stands for all values of SHA1_UNROLL; burnStack is
  left out.
- Hupsim.NSRouter.CreateTable: disconnected maps and more than 65535 routers are excluded. On a disconnected map the
  predecessor walk goes on through empty records without end, or for router 0, whose identifier equals an undefined
  one, stops the program with "No queue".
- Hupsim.NSQueue.constructor: rates, latencies and queue bounds are not negative.
- The counters that a hang-up signal resets.
- Hupsim.Network.Drain: the sleep may be shorter than needed, as the waits of earlier runs of a router count too; only
  the upper bound is stated.
