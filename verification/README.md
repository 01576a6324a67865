# Music protocol, verified

A server streams WAV samples to a client over UDP in bursts of 256-byte packets. The client collects
a burst in any order, asks again for what is missing, and appends the finished batch to a ring buffer
that feeds playback. This project models that protocol in Dafny and proves what holds of it over every
input, every loss pattern and every run, and where the code and its documentation disagree.

`dafny verify dfyconfig.toml` checks everything.

## How the modules fit together

- `Bytes`, `Arith`: octets, little-endian integers, the few product and quotient facts.
- `Fletcher`, `Framing`: the checksum with deferred reduction, the wire image of a packet, the two-stage
  check of a received one.
- `Packing`, `Sampling`, `Codec`: 128-to-112-bit packing on 16-bit words, dropping and restoring frames,
  and the composition that each quality level uses.
- `Shuffle`, `Stream`, `Requests`, `Server`: the server's side of one client. `Stream` and `Requests` say on
  values what a burst, a batch, a resend and a request do; `Server.ClientInfo` is the record the source
  changes in place, proved against them.
- `StreamRuns`, `StreamContent`, `StreamReads`: what every run of the server keeps, which music its packets carry,
  and when it reads nothing but samples.
- `Quality`, `Reassembly`, `Channel`, `ClientReceive`: the client's side of one batch, and a network that loses,
  damages (one flipped bit) and reorders datagrams.
- `Transfer`, `Session`, `Steering`: both ends together, for one batch, for a whole stream, and for a stream whose
  levels are those of the client's quality controller.
- `RingBuffer`, `Player`, `Listening`: the buffer, the play, request and adjust loop, and the stream that feeds it.
- `Slots`, `Handshake`: the table of clients, and the agreement on a new quality.
- `Limits`: concrete inputs on which the code does not do what is promised.

## Main results

1. **A batch arrives as it was sent** (`Transfer.BatchTransfer`). For every sequence of rounds in which requests
   and packets are lost, packets are damaged or reordered, a client that has every packet holds, packet by packet,
   what the quality level preserves of one batch of music, up to its end. While more than the batch is left, this
   needs nothing else (`Transfer.PlentySuits`). At the end of the music it needs `Transfer.Suited`, whose two clauses
   are exact for what the server sends: the last batch in an order that keeps full, partial and empty packets apart
   (`StreamContent.LastBatchExactIff`), and packets sent again only while the counter leaves room for a packet, or,
   once everything is counted, those that are padding (`StreamContent.AgainIff`). As many rounds that bring a packet as
   the batch has packets are enough (`Transfer.GoodRoundsComplete`).
2. **A whole stream, to its end, never skips music and repeats at most one batch** (`Session.SessionKeeps`,
   `Session.WhatIsHeard`, `Session.WholeSong`). The client's batch counter equals the server's or is one ahead of it,
   in every run. The first lost RR moves it from equal to one ahead and makes the client assemble once more one batch,
   of the size of the current level, before the pointer, or a batch of silence when nothing is left; every later lost
   RR is made up for, provided that two batches are left or the end is in sight (`StreamRuns.Guarded`). When the
   levels are those of the client's controller, the repeated batch is the end of what was heard
   (`Steering.ReplayWasHeard`). With every RR served the client ends up with all samples, once and in order, and less
   than a batch of silence. Such runs exist for every song (`Session.SongCanBePlayed`), also with the levels of the
   controller, which gets stuck only where it raises the level too late (`Steering.SteeredToTheEnd`).
3. **The accounts of the stream balance** (`StreamRuns.RunKeeps`, `StreamRuns.StepKeeps`, `StreamRuns.StreamEnds`,
   `StreamContent.RunCarriesMusic`). Once the first batch fits, every run stays within the payload; a step leaves room
   for the next batch exactly when it was guarded, so the two guards that the server lacks cannot be weakened. What is
   read are samples exactly when every step is covered (`StreamReads.RunReads`).
4. **The framing accepts exactly what was serialised, and every flipped bit is noticed**
   (`Framing.AcceptsExactlyWireImages`, `Framing.OneOctetChanged`, `Framing.OneBitFlipped`).
5. **The codec loses exactly what it is meant to lose** (`Codec.LevelOneIs`, `Codec.LevelTwo`, `Codec.WholePacket`,
   `Codec.CodecRoundTrip`, `Codec.HeardTwice`): every octet that comes out, for any number that goes in.
6. **The player never runs dry and never overwrites** (`Player.Client.Run`), **and what it plays is the song**, at the
   levels of its own controller and with at most the last batch heard repeated (`Listening.PlaySong`).

## Where the code and its documentation disagree

- The README of the repository promises that a REJ for all packets makes up for a lost RR. The client sends its own
  batch counter, and the server takes the REJ for a new batch only when it names the batch after its own. With
  equal counters, the state every stream starts in, `StreamContent.LostRequestYields` says what comes instead: one
  batch of the current size from before the pointer while the counter leaves room for a packet; of each of its packets
  only as many octets as are left when fewer than 256 are; and a batch of empty packets, neither music nor EOS, once
  everything is counted (`Limits.LastRequestLost`). `Session.SessionKeeps` has the consequence for a stream.
- The batch before the pointer lies within the music already sent exactly when the current batch size is not larger
  than that (`StreamReads.ReplayReads`). The controller of the client keeps it so (`Steering.ReplayWasHeard`); the
  server does not look (`Limits.ReplayBeforeStart`).
- The padding of the last batch is there so that the same rules apply as before. In the final stage, however, the size
  of a packet follows the byte counter and not the packet number. The last batch is right exactly in the sending orders
  of `StreamContent.LastBatchExactIff`; in others the server also reads behind the samples (`StreamReads.BatchReads`).
  A packet of a batch already counted comes whole again exactly when more than that batch was left
  (`Transfer.PlentyIff`). Otherwise it is right exactly when everything is counted and it is padding
  (`StreamContent.AgainIff`, `Limits.LastBatchResentEmpty`).
- The server tests for the final stage after an RR, with the batch size of the moment, and at no other place. A
  quality raised with less than one new batch left makes the next batch overrun the payload, as it happens to a client
  that loses nothing (`Limits.RaisedTooLate`). So does the RR after a REJ that was taken for a request of the next
  batch, when fewer than two batches were left: two lost RRs are enough, without any change of quality
  (`Limits.RecoveredTooFar`).
  `StreamRuns.StepKeeps` has the exact condition for both, `StreamRuns.BatchStaysWithin` for the batch itself.
- A client that comes back is turned away when its old slot is the first free one, not only when the server
  is full (`Slots.TurnedAwayIff`, `Slots.LeavingAndReturning`). The same refusal is what answers the REJ after a lost
  EOS with another EOS, as the README promises for every case. When neither holds, the REJ takes a slot and the answer
  is undefined (`Slots.LostEosAnswered`).
- An EOS seen while a new level is being agreed on ends the agreement with the level changed at the client only
  (`Handshake.EosAgreesIff`).
- Duplicates are counted as progress; a batch that counts as complete has every packet exactly when nothing arrived
  twice (`Reassembly.CompleteIff`).
- Downsampling fits the size it computes exactly for the sizes of `Sampling.FitsAtEight`.

## Hypotheses taken from the code

- `Reassembly.Fits`: a music packet that reaches the client has a number below the batch size (the code also lets the
  batch size itself through) and at most 256 octets of decoded data. Both follow for packets of the server.
- `Channel.Possible`: each datagram of a burst arrives at most once, and none of an earlier burst.
- `Transfer.Suited`: what the end of the music needs, see the first and the third point above.
- `StreamRuns.Formed`: no REJ before the first RR, for which the code leaves an argument uninitialised, and a REJ taken
  for a request of the next batch lists all of it, as the client's does. `StreamRuns.Guarded`: see the
  fourth point above. The song fills a first batch.
- `Requests.Readable`: a request carries the argument its flag announces.
- Memory beyond the samples and memory that a datagram does not reach have arbitrary content.

## Model

| member | source | states |
|---|---|---|
| Fletcher.Generate16 | src/communication/checksums/checksum.c:4-21 | the loop with twenty octets between reductions and 16-bit accumulators never overflows, for every size up to 65535, and yields the sum modulo 255 in the low octet and the sum weighted by the distance from the end in the high octet, each in 1..255 |
| Fletcher.ChecksumIs | src/communication/checksums/checksum.c:18-20 | which of the two sums is which, both given from the front and for empty data too |
| Fletcher.SumUpdate | src/communication/checksums/checksum.c:12-12 | what replacing one octet does to both sums: the second weighs it by its distance from the end |
| Fletcher.OneOctetUndetected | src/communication/checksums/checksum.c:4-21 | replacing one octet leaves the checksum unchanged exactly when it swaps 0x00 and 0xff |
| Fletcher.ExchangeUndetected | src/communication/checksums/checksum.c:4-21 | exchanging two octets leaves it unchanged exactly when 255 divides their distance times their difference |
| Framing.MakeChecksum1 | src/communication/com.c:57-63 | the header checksum is the Fletcher checksum of the six octets behind it on the wire |
| Framing.ConvertSend | src/communication/com.c:72-93 | the buffer written field by field is the wire image of the packet |
| Framing.WireIs | src/communication/com.c:72-93 | the image octet by octet: checksum, size and second checksum with the low octet first, the flags, the number, the data |
| Framing.ComReceive | src/communication/com.c:194-241 | the two-stage check, on datagrams of any length received into memory of any content |
| Framing.RoundTrip | src/communication/com.c:72-110 | a serialised packet is read back with the same flags, number and data |
| Framing.AcceptsExactlyWireImages | src/communication/com.c:194-241 | a long enough datagram is accepted as a packet exactly when it starts with that packet's wire image |
| Framing.AcceptsIff | src/communication/com.c:194-241 | any datagram, however short, is accepted as a packet exactly when its octets, and behind them those left in memory, are the packet's wire image; every other one is faulty |
| Framing.SeenBehind | src/communication/com.c:199-226 | behind a datagram that is too short, each of the two buffers shows what its memory held |
| Framing.OneOctetChanged | src/communication/com.c:209-238 | one changed octet: always caught in the checksum fields, caught elsewhere unless it swaps 0x00 and 0xff, and what is received when it does in flags, number or data |
| Framing.SizeSwapped | src/communication/com.c:209-238 | a swap of 0x00 and 0xff in the size: the header passes, the data is cut off or runs on into stale memory, and is accepted exactly when its checksum is the old one |
| Framing.Checksum2Changed | src/communication/com.c:231-236 | any change confined to the second checksum field is caught |
| Framing.OneBitFlipped | src/communication/com.c:209-236 | every single flipped bit, in any header field or the data, is caught |
| Packing.PackKeepsStream | src/compression/compress.c:7-32 | packed words are the fourteen high bits of the eight words, one after the other |
| Packing.UnpackKeepsStream | src/compression/compress.c:34-59 | unpacked words hold the bit stream in groups of fourteen over two zero bits |
| Packing.Pack128Bit | src/compression/compress.c:9-32 | the pointer-stepping code writes the packed group and nothing else |
| Packing.Unpack128Bit | src/compression/compress.c:35-59 | the pointer-stepping code writes the unpacked group and nothing else |
| Packing.CompressData | src/compression/compress.c:74-91 | the loop packs every whole group into exactly the computed size |
| Packing.DecompressData | src/compression/compress.c:95-113 | the loop unpacks every whole group into exactly the computed size |
| Packing.DecompressCompress | src/compression/compress.c:74-113 | unpacking packed words gives the whole groups with every word masked by 0xFFFC |
| Packing.CompressDecompress | src/compression/compress.c:74-113 | packing unpacked words gives them back |
| Packing.CompressAt | src/compression/compress.c:74-91 | the k-th seven words are the k-th eight, packed |
| Packing.DecompressAt | src/compression/compress.c:95-113 | the k-th eight words are the k-th seven, unpacked |
| Sampling.KeptClosed | src/compression/compress.c:124-132 | how many frames stay when every n-th goes, in closed form |
| Sampling.FitsAtEight | src/compression/compress.c:117-132 | the write loop stays in the allocated data exactly for these sizes |
| Sampling.ReadsFit | src/compression/compress.c:141-157 | resampling never reads past its input, for every size and every n > 1 |
| Sampling.Downsample | src/compression/compress.c:115-137 | the frame loop computes the kept frames followed by zeros up to the computed size |
| Sampling.Resample | src/compression/compress.c:139-162 | the frame loop puts zero frames at every n-th place |
| Sampling.ResampleDownsample | src/compression/compress.c:115-162 | for every n > 1 and every multiple of 4n, restoring a thinned signal silences exactly frames 0, n, 2n and so on, and the loop fits |
| Sampling.DownsampleResample | src/compression/compress.c:115-162 | for every n > 1 and every multiple of 4(n-1), thinning a restored signal gives it back |
| Sampling.DownsampledIs | src/compression/compress.c:115-137 | for every size and every n > 1: how long the data gets, and which frame each of its frames is |
| Sampling.ResampledSize | src/compression/compress.c:139-146 | for every size and every n > 1: how long the data gets |
| Sampling.ResampledIs | src/compression/compress.c:139-162 | for every size and every n > 1: frames 0, n, 2n are silent, and each other one is the frame of the data at its place less the silent ones |
| Sampling.ResampledRest | src/compression/compress.c:139-162 | what is left behind the last whole frame is silent |
| Codec.DecompressCompress | src/compression/compress.c:74-113 | on octets of any number: whole 16-octet groups with two bits of every word cleared |
| Codec.EncodeData | src/server/server/send/send.c:72-75 | downsampling at level 1, packing at levels 1 and 2 |
| Codec.DecodeData | src/client/client/receive/receive.c:80-83 | unpacking at levels 1 and 2, resampling at level 1 |
| Codec.CodecRoundTrip | src/server/server/send/send.c:72-75 | for every multiple of 128 octets the client gets the same length back: every eighth frame silent at level 1, two bits of every word cleared at levels 1 and 2, nothing lost above |
| Codec.HeardTwice | src/compression/compress.c:115-162 | a second pass changes nothing |
| Codec.CompressDecompress | src/compression/compress.c:74-113 | on octets: packing what was unpacked gives it back |
| Codec.PreservedIs | src/server/server/send/send.c:72-75 | of any number of octets, as at the end of the music: at level 2 the client gets the whole 16-octet groups with two bits of every word cleared, at level 1 the same from the thinned signal, above it everything |
| Codec.LevelOneIs | src/client/client/receive/receive.c:80-83 | of any number of octets: how much level 1 sends and how much comes out, and every octet of it, 0 in frames 0, 8, 16 and those not there in full, without its two low bits at even places, unchanged at odd ones |
| Codec.LevelTwo | src/client/client/receive/receive.c:80-81 | the same at level 2: fourteen octets for sixteen, no frame silent |
| Codec.LevelsThreeToFive | src/communication/quality/quality.c:30-36 | levels 3 to 5 change nothing |
| Codec.WholePacket | src/server/server/send/send.c:72-75 | the sizes and octets of a whole packet, level by level |
| Codec.DecodeFits | src/client/client/receive/receive.c:85-88 | decoded data never outgrows what was encoded, so a packet stays in its place |
| Shuffle.RandomizePacketOrder | src/communication/simulation/simulation.c:8-20 | for every sequence of draws the numbers stay a permutation, which keeps both swapped positions in bounds |
| Shuffle.SwapMoves | src/communication/simulation/simulation.c:8-20 | a draw exchanges the entries at the two places named by the entries drawn, and moves no other |
| Shuffle.Unshuffled | src/communication/simulation/simulation.c:8-20 | without such a draw the order stays as it is |
| Shuffle.FrontFillsBelow | src/server/server/send/send.c:45-64 | in a permutation whose first n places hold numbers below n, later places hold none of them |
| Stream.BurstCounts | src/server/server/send/send.c:17-34 | the state after n packets sent for the first time: the counter advances by packets and stops at the payload in the final stage |
| Stream.ResentPieces | src/server/server/send/send.c:29-34 | a packet sent again comes from the place of its number, and whole exactly when the counter leaves room for a packet |
| Stream.ResendLeavesNoTrace | src/server/server/send/send.c:92-140 | a REJ for a batch already sent leaves pointer, batch number, byte counter and stage unchanged |
| Stream.ResendOfNextIsBatch | src/server/server/send/send.c:43-140 | a REJ naming the next batch and listing all of it sends the packets of an RR and reaches its state, except for the stage |
| Requests.ServeRR | src/server/server/receive/receive.c:64-78 | an RR from a client with music left is answered with a batch, and starts the stream |
| Requests.ServeRej | src/server/server/receive/receive.c:79-102 | a REJ is answered with the packets it lists, of the batch it names |
| Requests.ServeQty | src/server/server/receive/receive.c:81-107 | a QTY sets level and batch size, nothing else, and is answered with an ACK |
| Requests.RequestsAre | src/client/client/send/send.c:7-53 | flags and octets of each request of the client |
| Requests.TakenFor | src/server/server/receive/receive.c:57-108 | what a request is taken for in every stage, by the bits of its flags and their order of precedence |
| Server.ClientInfo.PrepareFinal | src/server/server/send/send.c:29-34 | the size left by the byte counter, in size_t arithmetic |
| Server.ClientInfo.SendPackets | src/server/server/send/send.c:60-82 | the loop sends the burst and leaves the state that Stream describes |
| Server.ClientInfo.SendingOrder | src/server/server/send/send.c:45-57 | every packet number of the batch occurs, and only once; in natural order unless the simulation acts, and as its draws shuffle them when it does |
| Server.ClientInfo.SendBatch | src/server/server/send/send.c:43-90 | a batch in an order that holds every packet number once, the natural one unless the simulation acts, and the state after it |
| Server.ClientInfo.SetMusicToBatch | src/server/server/send/send.c:92-100 | the rewind, and when it is none |
| Server.ClientInfo.SendFaulty | src/server/server/send/send.c:107-140 | the listed packets between rewind and restore, and the state after it |
| Server.ClientInfo.Init | src/server/client_info/client_info.c:9-21 | the state of a slot just taken |
| Server.ClientInfo.Answer | src/server/server/receive/receive.c:110-136 | a request from receipt to reply, in every stage, as Requests describes; a batch in natural order unless the simulation acts |
| StreamRuns.BatchClosed | src/server/server/send/send.c:43-90 | the state after a batch in closed form |
| StreamRuns.BatchStaysWithin | src/server/server/send/send.c:29-34 | a batch keeps the byte counter within the payload exactly when there was room for it, and leaves room for the next at the same level |
| StreamRuns.AfterIsServe | src/server/server/receive/receive.c:88-100 | a step of a run is what the server does with the client's message, guarded or not; the reply is EOS exactly at the end |
| StreamRuns.StepKeeps | src/server/server/send/send.c:85-140 | every step keeps the accounts and leaves room for the next batch exactly when it was guarded; an RR makes progress until everything is counted, and EOS frees the slot exactly then |
| StreamRuns.RunKeeps | src/server/server/send/send.c:43-140 | over every mix of RR, REJ and QTY, from the first batch fitting and the two guards: bytes_sent within the payload, room for the next batch at all times, the pointer moved by the sum of the batches and equal to bytes_sent until everything is counted |
| StreamRuns.ConnectionIsFresh | src/server/server/receive/receive.c:57-63 | an initial ACK leaves the state from which every stream starts |
| StreamRuns.KnownSize | src/communication/constants/constants.c:29-45 | the batch sizes of the five levels |
| StreamRuns.StreamEnds | src/server/server/send/send.c:85-88 | at fixed quality exactly ceil(payload / batch size) batches, whatever the orders, then EOS and a free slot |
| StreamContent.NaturalBurst | src/server/server/send/send.c:60-88 | a batch in natural order carries exactly the stretch it counts, empty padding packets included |
| StreamContent.RunCarriesMusic | src/server/client_info/client_info.c:37-44 | in natural order and without resends a run carries exactly the samples counted, once and in order, through every quality change; at EOS all of them |
| StreamContent.FinalSizes | src/server/server/send/send.c:29-34 | in the final stage sizes follow the sending position, places follow the number |
| StreamContent.LastBatchExactIff | src/server/server/send/send.c:29-34 | the last batch is right exactly when full, partial and empty packets are sent apart, in that order |
| StreamContent.ResendServes | src/server/server/send/send.c:92-100 | a REJ serves the batch at the pointer exactly when it names the batch after the server's, otherwise the batch before |
| StreamContent.LostRequestYields | src/server/server/send/send.c:92-140 | what every packet of a lost RR is, place and size: the next batch with the counter one ahead; with equal counters one batch before the pointer, whole, cut to what is left, or empty, and exactly when |
| StreamContent.AgainIff | src/server/server/send/send.c:107-140 | every packet of a REJ for a batch already sent has its own size exactly when the counter leaves room for a packet, or everything is counted and all of them are padding |
| StreamReads.BatchReads | src/server/server/send/send.c:60-82 | a batch is cut from the samples only, exactly when it is not of the final stage or its order keeps full, partial and empty packets apart |
| StreamReads.ResendReads | src/server/server/send/send.c:107-140 | packets sent again are cut from the samples only, exactly when they are empty or none lies before the first sample |
| StreamReads.ReplayReads | src/server/server/send/send.c:92-100 | what a lost RR repeats lies within the music exactly when the batch size is at most the distance of the pointer from the start |
| StreamReads.RunReads | src/server/server/send/send.c:17-34 | a run of RR, REJ and QTY reads nothing but samples exactly when each of its steps is covered |
| Quality.Controller.Adjust | src/communication/quality/quality.c:38-56 | the state after one adjustment, and that it reports exactly the changes of level |
| Quality.AdjustedMoves | src/communication/quality/quality.c:22-56 | up on the fifth call with fewer than one bad receipt in seventeen, down with more than one in nine, by one, and otherwise only counting |
| Quality.RunKeeps | src/communication/quality/quality.c:38-56 | over every run the level stays in 1..5 and changes at most once in five adjustments |
| Quality.SharesDecide | src/communication/quality/quality.c:14-28 | over every run of finished batches and adjustments the counters are those of the batches since the last measurement, and the level goes up exactly below 6.25% of their packets and down exactly above 12.5% |
| Quality.SteeredKeeps | src/client/main.c:32-42 | however batches and losses move the level, before every batch but the first at least as many packets have been sent as a batch of the present level has |
| Quality.QuietRises | src/client/main.c:32-42 | without losses the level goes up with the fifth batch after the buffer was filled, and not before |
| Reassembly.RawBatch.GetMissingNrs | src/client/client/receive/receive.c:26-41 | the loop lists the missing numbers, as many as the size leaves |
| Reassembly.RawBatch.Receive | src/client/client/receive/receive.c:56-92 | the receive loop with its counters computes the round described by Collected |
| Reassembly.RawBatch.Store | src/client/client/receive/receive.c:85-88 | one packet decoded into its place, marked and counted |
| Reassembly.RoundCounters | src/client/client/receive/receive.c:56-92 | the counters of a round by the receipts before its end: only packets without a flag and numbered up to the batch size are stored, damaged ones are faulty, what did not come is lost, all else is discarded |
| Reassembly.RoundMarks | src/client/client/receive/receive.c:74-88 | a place is marked exactly when it was or such a packet with its number came, and otherwise nothing that comes changes it |
| Reassembly.RoundData | src/client/client/receive/receive.c:80-88 | a place begins with the data of the packet that came for it last |
| Reassembly.RoundAccounts | src/client/client/receive/receive.c:56-92 | stored + faulty + lost + discarded is the number of receipts, the size grows by the stored ones within the batch, and never falls behind the marks |
| Reassembly.RoundAt | src/client/client/receive/receive.c:80-88 | without duplicates each place holds its delivered packet or what it held before |
| Reassembly.RoundCounts | src/client/client/receive/receive.c:86-87 | without duplicates size and marks grow together |
| Reassembly.OrderDoesNotMatter | src/client/client/receive/receive.c:56-92 | the assembled batch does not depend on the order of delivery |
| Reassembly.DuplicatesShow | src/client/client/receive/receive.c:86-87 | the size runs ahead of the marks exactly when something arrives twice |
| Reassembly.CompleteIff | src/client/client/receive/receive.c:86-102 | a batch that counts as complete has every packet exactly when nothing arrived twice |
| Reassembly.MissingIs | src/client/client/receive/receive.c:31-39 | the unmarked numbers, strictly ascending, all of them, and how many |
| Reassembly.RequestedIs | src/client/client/receive/receive.c:26-41 | the list in a REJ is strictly ascending, has length amount minus size, names only missing packets and without duplicates all of them |
| Channel.CheckedIs | src/communication/com.c:194-241 | intact packets come through unchanged, packets with a flipped bit are recognised |
| Channel.PeekConsumes | src/client/client/receive/receive.c:140-148 | looking for an EOS consumes the first datagram exactly when its header fails, and uncounted |
| Channel.BurstIsOnce | src/client/client/receive/receive.c:56-92 | a burst of missing packets, lossy, damaged and reordered, meets what a round needs |
| ClientReceive.Client.ReceiveBatch | src/client/client/receive/receive.c:105-126 | the request loop: RR first, a REJ for what is missing after each incomplete burst, EOS, the packets lost and faulty on the way, and the counters when the batch is complete |
| ClientReceive.ExchangeIsReassembly | src/client/client/receive/receive.c:105-116 | the client's half of an exchange, and what it counts as lost and faulty, is what that loop computes from the bursts it meets |
| Transfer.RoundKeepsFaith | src/client/client/receive/receive.c:56-92 | a round with the right packets leaves every marked place right and every other empty, and any intact arrival is progress |
| Transfer.BatchCarries | src/server/server/send/send.c:43-90 | the packets of a batch carry the music at the pointer, each its share, the last batch in the orders that suit it |
| Transfer.ResendCarries | src/server/server/send/send.c:107-140 | resent packets carry the music of the batch before the pointer, each its share, padding included, and silence when nothing is left |
| Transfer.PlentyIff | src/server/server/send/send.c:29-34 | a packet of the batch just sent comes whole again exactly when more than the batch was left |
| Transfer.ExchangeKeeps | src/client/client/receive/receive.c:105-116 | after every round of every exchange each marked packet is right, each other place empty, the server stands still, and the size is at least the number of rounds that brought a packet |
| Transfer.BatchTransfer | src/client/client/receive/receive.c:105-126 | a complete batch is, packet by packet, what the level preserves of one batch of music, the last one and its lost padding included; where it comes from, where the server stands, whether it has room for more, and how the counters compare |
| Transfer.AssembledIs | src/client/client/receive/receive.c:80-88 | a packet from before the end of the music is the original sound but for the loss of the level, the one across the end what the level preserves of the rest, and the others are silent |
| Transfer.PlentySuits | src/server/server/send/send.c:29-34 | with more than the batch left every exchange, whatever its losses and its order, is one for which a complete batch is right |
| Transfer.GoodRoundsComplete | src/client/client/receive/receive.c:109-116 | as many served rounds with an intact packet as the batch has packets complete it, whatever happens in the others |
| Transfer.PerfectRound | src/client/client/receive/receive.c:105-126 | when every packet arrives intact, one round completes the batch and nothing is counted as lost |
| Transfer.LosslessBatch | src/client/client/receive/receive.c:80-88 | at levels 3 to 5 the assembled buffer is the music itself, and silence after its end |
| Session.LegKeeps | src/client/client/receive/receive.c:105-126 | one batch of a stream, at an agreed level |
| Session.SessionKeeps | src/server/server/send/send.c:92-100 | over every run up to the end the counters stay equal or one apart, and each batch is the next stretch of music except at the first lost RR, which brings one batch before the pointer or silence |
| Session.ListenedRepeatsOnce | src/server/server/send/send.c:92-100 | when RRs were lost, at levels 3 to 5, what the client assembled is the music bit by bit with one stretch put in between, from one batch before the place reached, or silence at the end |
| Session.WhatIsHeard | src/client/client/receive/receive.c:118-125 | the same for every run: which stretch is put in, if any, and nothing else is; at EOS the end has been reached |
| Session.ListenedIsMusic | src/client/client/receive/receive.c:118-125 | with every RR served, at levels 3 to 5, what the client assembled is the music, bit by bit, and silence after its end |
| Session.EndsIff | src/server/server/receive/receive.c:88-100 | an RR is answered with EOS exactly when everything has been counted |
| Session.WholeSong | src/client/main.c:27-39 | when EOS comes, with every RR served and at levels 3 to 5, the client has assembled all samples, octet by octet what the server has in memory from the first one on, once and in order, and less than a batch of silence |
| Session.SongCanBePlayed | src/client/main.c:27-39 | for every song that fills a first batch there is a run to its end, in ceil(payload / batch size) batches |
| Steering.PointerIs | src/client/client/client.c:93-111 | in a stream at the levels of the controller, with every RR served, the pointer has moved by the packets that the controller has counted |
| Steering.ReplayWasHeard | src/server/server/send/send.c:92-100 | in a stream at the levels of the controller, what the first lost RR repeats does not begin before the first sample and is the end of what has been heard |
| Steering.SteeredToTheEnd | src/client/main.c:27-50 | for every song there is an undisturbed run at the levels of the controller, to its end or to a level raised with less than one of its batches left |
| RingBuffer.Window | src/buffer/buffer.c:53-62 | the element at each index, across the wrap |
| RingBuffer.Buffer.EmptyIff | src/buffer/buffer.c:85-91 | the position test finds the buffer empty exactly when it holds nothing |
| RingBuffer.Buffer.Add | src/buffer/buffer.c:37-45 | appends at the end of the queue; valid afterwards exactly unless it overrode a full buffer |
| RingBuffer.Buffer.Read | src/buffer/buffer.c:53-62 | the i-th oldest element, modulo the size |
| RingBuffer.Buffer.Get | src/buffer/buffer.c:64-75 | takes the oldest element, none exactly from an empty buffer |
| Player.Client.Play | src/client/musicplayer/player.c:50-54 | moves one packet from the buffer to what was played; never from an empty buffer |
| Player.Client.ReceiveBatch | src/client/client/receive/receive.c:117-125 | a finished batch is appended whole, in packet order, and recorded |
| Player.Client.FillInitialBuffer | src/client/client/client.c:93-100 | batches while one fits, each requested with room for it and of the level that the controller has |
| Player.Client.AdjustQuality | src/client/client/client.c:102-111 | the level moves as the controller says and stays in 1..5 |
| Player.Client.PlayUntilRoom | src/client/main.c:33-34 | plays until exactly one batch fits, with at least 255 packets left |
| Player.Client.PlayAndReceive | src/client/main.c:32-39 | one turn of the loop: the request goes out with exactly one batch of room and 255 packets queued, and a batch leaves the buffer full |
| Player.Client.Run | src/client/main.c:27-50 | over every run played plus buffered is what was accepted, every request is for a batch of the level that the controller has reached, later ones have exactly one batch of room and 255 packets queued, every batch then fills the buffer, and after EOS everything is played |
| Listening.AcceptedIsListened | src/client/client/receive/receive.c:118-122 | the packets the player accepts are, octet by octet, what the stream assembled |
| Listening.AcceptedIsMusic | src/client/main.c:27-50 | with every RR served, at levels 3 to 5, the packets accepted for playing are the samples from the start on, and silence after the end |
| Listening.FedIsSteered | src/client/client/client.c:102-111 | a stream that feeds a player, losses included, runs at the levels of the player's controller |
| Listening.SteeredIsHeard | src/client/client/receive/receive.c:118-125 | at levels 3 to 5 such a stream is heard as the music with at most one batch put in, and that is the last one heard or silence |
| Listening.PlaySong | src/client/main.c:27-50 | a player fed by a stream holds or has played what the stream assembled, at the levels of its controller; at levels 3 to 5 that is the music with at most the last batch heard repeated, and after EOS, with every RR served, the whole song |
| Slots.SearchClient | src/server/server/receive/client_search.c:8-27 | the slot of a known address, else the first free one unless it held the same address |
| Slots.Receive | src/server/server/receive/receive.c:36-53 | what a datagram does to the table: an address not turned away holds the slot found, every other slot is as before |
| Slots.TakesSlot | src/server/client_info/client_info.c:9-12 | every further datagram of such an address finds that slot |
| Slots.ReleasedIs | src/server/server/receive/receive.c:94-100 | a slot released is free and keeps its address, and no other changes |
| Slots.NewClientServed | src/server/server/receive/receive.c:110-136 | a new client that is not turned away is sent an ACK for its ACK and a batch for its RR |
| Slots.TraceKeepsDistinct | src/server/server/receive/client_search.c:8-27 | over every run of datagrams, EOS and timeouts slots in use have distinct addresses |
| Slots.TurnedAwayIff | src/server/server/receive/client_search.c:18-26 | an unknown address is turned away exactly when every slot is taken or the first free one is its old slot |
| Slots.LeavingAndReturning | src/server/server/receive/client_search.c:18-26 | a client whose stream ended cannot come back while its old slot is the first free one |
| Slots.LostEosAnswered | src/server/server/receive/receive.c:110-136 | the REJ after a lost EOS is answered with EOS exactly when every slot is taken or the first free one is the old slot; otherwise the answer is undefined |
| Handshake.AgreementIff | src/client/client/client.c:102-111 | whatever QTYs and ACKs are lost, both ends agree when an ACK ends the loop, exactly when no stale ACK or other request was under way |
| Handshake.EosAgreesIff | src/client/client/client.c:105-106 | when a waiting EOS ends the loop both ends are sure to agree only if they did before |
| Handshake.UncleanDisagrees | src/client/client/client.c:104-109 | otherwise a run of the loop, from its first QTY on, in which the client leaves and the server has another level |
| Limits.RaisedTooLate | src/client/client/client.c:102-111 | a song and a loss-free client whose controller raises the level after seventeen batches, and the next batch overruns the payload |
| Limits.RecoveredTooFar | src/server/server/send/send.c:92-140 | a run with two lost RRs and no change of quality after which the next batch overruns the payload |
| Limits.LastBatchExchanged | src/server/server/send/send.c:29-34 | a song of two batches, the first two packets of the second exchanged, and its content wrong |
| Limits.LastBatchResentEmpty | src/server/server/send/send.c:29-34 | a packet of the second batch of that song sent again is empty, which is right for the padding and wrong for the first two |
| Limits.ReplayBeforeStart | src/server/server/send/send.c:92-100 | a level raised by two after one batch, an RR lost, and a packet sent again from before the first sample |
| Limits.LastRequestLost | src/server/server/send/send.c:92-140 | a song of two whole batches, the RR after them lost, and a batch of empty packets |
| Limits.ShortPacketDoesNotFit | src/compression/compress.c:117-132 | twelve octets at level 1 do not fit the computed size |
| Limits.FlagsSwapped | src/communication/com.c:209-238 | a swap of 0x00 and 0xff in the flags of a music packet goes unnoticed |

## Left out

- Transfer.BatchTransfer: asks for Transfer.Suited, which fails only where the server answers with EOS or sends
  packets of the wrong size; StreamContent.LastBatchExactIff and StreamContent.AgainIff say exactly when it does. What
  a client assembles from such packets is left out.
- Session.SessionKeeps: takes the agreed quality of each batch as given, since Handshake.AgreementIff is the
  agreement.
- Server.ClientInfo.SendPackets: builds the packet with the function Codec.Encode; Codec.EncodeData is the code that
  computes it, and what downsampling does to memory beyond the computed size, for the sizes outside
  Sampling.FitsAtEight, is not modelled.
- Server.ClientInfo.SendFaulty: needs the four octets of the batch number; for a shorter argument the source reads
  past it.
- Sampling.Downsample: for sizes whose frames do not fit the computed size the source writes past its allocation,
  which is not modelled; Sampling.FitsAtEight says for which.
- Codec.EncodeData: the same sizes at level 1.
- Framing.ComReceive: begins with a datagram that is there; timeouts, errors of the socket and of the allocation are
  the other constructors of Framing.Received, taken as given.
- Reassembly.RawBatch.Receive: a packet whose number equals the batch size is let through by the source and written
  past the batch; Reassembly.Fits excludes it.
- ClientReceive.Client.ReceiveBatch: the same, and it runs over the turns given; the loop of the source waits for
  more, and may do so for ever.
- Player.Client.AdjustQuality: moves the level; the loop of QTY and ACK that follows is Handshake.
- Player.Client.Run: runs over the receptions given; Listening.PlaySong says which music they hold.
- Sockets, time and MSG_PEEK: a socket is the sequence of datagrams it yields before a timeout; a first datagram
  with a damaged header is consumed by the look for an EOS, as in the source.
- A request damaged on its way to the server counts as lost; that the server then consumes one more datagram is not
  modelled.
- Several flipped bits in one datagram: the channel damages one bit, Framing.OneOctetChanged and
  Fletcher.ExchangeUndetected cover more of what the checksum does.
- Late and duplicated datagrams in a transfer: excluded by Channel.Possible, except for the counting of duplicates
  in Reassembly.
- Wrap-around of 64-bit counters other than bytes_sent, and of the 32-bit counters of statistics.
- ALSA playback, WAV headers, menus, options, statistics, allocation failures, and the timer as a concurrent thread.
- The unused 32-bit checksum and the random numbers of the simulation, which are parameters.
