# A model of the libraries of a multipath QUIC stack

This project states and proves what the core of the repository promises, part by part:

- **Stream transport.** A sender cuts written bytes into frames, splits lost frames again and packs them; a
  network loses, duplicates and reorders; a receiver reassembles the bytes with a list of gaps
  (`Wire`, `FrameSorter`, `Stream`, `Framer`, `FramingPass`, `PacketPacker`, `Transport`); `Connection` puts
  several streams together. The streams of a connection and the order in which they get their turn are in `StreamsMap`, the choice of a path in `Scheduler`.
- **TLS 1.3 handshake** (draft 21; sections 4.4.1, 7.1, 7.2 and appendix A of RFC 8446). Client and server
  are state machines over two first-in-first-out channels, and the cryptography is a set of functions with a
  few laws (`TlsMessages`, `TlsClient`, `TlsServer`, `TlsSession`, `TlsAgreement`, `TlsHandshake`, `TlsRuns`).
  `TlsNegotiation` says what a server chooses, `TlsSecrets` what the secrets depend on, and `TlsBinding` what an end
  knows when it accepts a message. `TlsExamples` has one instance of the laws, with the encoding of messages in
  `TlsEncoding`, and runs with it. Key updates and tickets after the handshake are in `TlsKeyUpdate`.
- **TLS framing and records** (section 5 of RFC 8446): `Bits`, `TlsFraming`, `TlsRecords`, `TlsHandshakeLayer`,
  and `TlsPipe` for every interleaving of a writer and a reader.
- **AES-GCM with a table of sixteen multiples** (sections 6.2 to 6.5, 7.1 and 7.2 of NIST SP 800-38D):
  `GcmField`, `Gcm`. The block cipher is any function on blocks.
- **YAML.** The parser and the tree builder (`YamlGrammar`, `YamlNesting`, `YamlParser`, `YamlTree`): its events are
  well nested, each is spelled by its tokens (`YamlContents`), and the documented grammar is parsed (`YamlPhrases`).
  The token queue of the scanner (`YamlQueue`, `YamlFetch`, `YamlTokens`, `YamlScanner`) and the tokens for the block
  structure (`YamlBlocks`). Both together (`YamlStream`). Double-quoted scalars from the emitter to the scanner
  (`YamlText`, `YamlEmitText`, `YamlScanText`, `YamlRoundTrip`).
- **Caches:** the list of recent entries, 2Q and ARC (`Sequences`, `CacheOps`, `Lru`, `TwoQueue`, `Arc`).
- **FNV-1a with 128 bits:** `Fnv128`.

The project file `dfyconfig.toml` names all of its Dafny files.

Code that changes fields or arrays step by step is modelled by classes and loops, each proved against a
function or predicate on values; what holds in every run is proved about those.

## What the proofs found

Some promises do not hold of the code as it is. For each there is an instance and the exact condition, or a lemma
that covers every input:

- A frame that is trimmed at its end keeps its end mark, so a reader can be told too early that the stream
  has ended (`Transport.EarlyEndOfStream`, `Transport.FinStaysExactIff`).
- An empty frame with an end mark takes the place of data at its offset, which is lost although it counts as
  received (`FrameSorter.FinLosesData`, `FrameSorter.PushFinValidIff`).
- When the first class of streams fills a packet exactly and a stream of the second class follows, the last frame
  is sent under that stream's number (`FramingPass.ByteOnOtherStream`, `FramingPass.Inputs.SentIsCutIff`). Its
  header can get longer, so that the packet is too large (`PacketPacker.PacketTooLarge`, `PacketPacker.FitsIff`),
  and a reader can get bytes of another stream (`Connection.ReaderGetsForeignByte`, `Connection.PassKeepsInvIff`).
- When a stream is removed, only one of the two round-robin indices is adjusted (`StreamsMap.IndexFollows`).
- A client never asks its application about the server's certificate: the check is dropped between the states that
  wait for the server's hello and for its extensions (`TlsRuns.HandshakeCompletesIff`, `TlsExamples.RunsEnd`), and
  a connection hands it to neither side (`TlsRuns.ConnectionsCompleteIff`). A server that has the check and refuses
  the client's certificate leaves the client connected.
- After a hello retry request no pre-shared key is ever accepted (`TlsHandshake.RetryRejectsPsk`).
- A handshake message of exactly the largest length the writer accepts is sent with length zero
  (`TlsHandshakeLayer.LargestMessageIsLost`); with a cipher, fragments of full size are refused
  (`TlsHandshakeLayer.WritableIff`).
- The scanner can panic where a comment says that this cannot happen (`YamlTokens.ScannerPanics`,
  `YamlFetch.PanicsIff`).
- The parser refuses two forms of the grammar that it is documented to implement: a value without a key in a block
  mapping (`YamlPhrases.ValueWithoutKeyFails`) and a missing key in a single pair that has a value
  (`YamlPhrases.PairWithoutKeyFails`). All other forms are parsed (`YamlPhrases.GrammarIsParsed`).
- A 2Q cache whose recent part is the whole cache, and an ARC cache in one situation, hold one entry more than
  their size (`TwoQueue.Overflows`, `Arc.OneTooMany`; `TwoQueue.AddedKeeps`, `Arc.AddedKeeps`).

Where code and comments differ, the model follows the code: the check for a byte order mark always looks at
the start of the string, so a string that starts with one is escaped completely; an own stream number that is
next to be opened counts as closed; asking for a later stream of the peer with a marker opens only the next one;
an indicator in place of the key of a single pair is taken together with the empty key.

## Model

| member | source | states |
|---|---|---|
| `FrameSorter.Sorter.Push` | repository/lucas-clemente/quic-go/stream_frame_sorter.go:52-177 | the missing bytes afterwards are the ones missing before without the bytes of the frame; each error has its exact cause; the two internal-error results only occur for frames that end at the largest byte count; the invariant (sorted, separate gaps, and every covered region can be walked frame by frame) is kept if and only if the frame is not an empty end mark at the offset of data on such a walk |
| `FrameSorter.PushFinValidIff` | repository/lucas-clemente/quic-go/stream_frame_sorter.go:59-65 | an empty frame with an end mark keeps the invariant if and only if no frame on a walk starts at its offset |
| `FrameSorter.FinLosesData` | repository/lucas-clemente/quic-go/stream_frame_sorter.go:59-65 | three received bytes are gone after an end mark at their offset, although they still count as received |
| `FrameSorter.Sorter.CutQueued` | repository/lucas-clemente/quic-go/stream_frame_sorter.go:67-75 | cuts off the bytes that are queued under the frame's own offset, or nothing is new |
| `FrameSorter.Sorter.FindGap` | repository/lucas-clemente/quic-go/stream_frame_sorter.go:77-95 | finds the first gap that a frame reaches, or that the frame brings nothing new |
| `FrameSorter.Sorter.FindEndGap` | repository/lucas-clemente/quic-go/stream_frame_sorter.go:105-121 | finds the last gap that a frame reaches and drops the gaps and the queued frames on the way |
| `FrameSorter.Sorter.ShrinkGaps` | repository/lucas-clemente/quic-go/stream_frame_sorter.go:131-157 | cuts the bytes of a frame out of the gap list in all four positions |
| `FrameSorter.Parts.CarvedMissing` | repository/lucas-clemente/quic-go/stream_frame_sorter.go:131-157 | the gap list after the cut misses exactly the bytes it missed before, without those of the frame |
| `FrameSorter.Sorter.Fill` | repository/lucas-clemente/quic-go/stream_frame_sorter.go:97-177 | queues the missing part of a frame, trimmed on both sides |
| `FrameSorter.PushStores` | repository/lucas-clemente/quic-go/stream_frame_sorter.go:97-169 | storing a trimmed frame joins the regions on both sides of it, and leftovers of older frames do no harm |
| `FrameSorter.GapsUnique` | repository/lucas-clemente/quic-go/stream_frame_sorter.go:131-157 | a gap list is determined by which bytes are missing |
| `FrameSorter.Sorter.Head` | repository/lucas-clemente/quic-go/stream_frame_sorter.go:194-232 | the frame at the read position; filling a gap of an unreliable stream removes exactly that gap and stores zeros |
| `FrameSorter.Sorter.Pop` | repository/lucas-clemente/quic-go/stream_frame_sorter.go:179-192 | takes the frame at the read position, queued or filled with zeros, and moves the position to its end; without one nothing changes; keeps the invariant |
| `FrameSorter.PopKeepsValid` | repository/lucas-clemente/quic-go/stream_frame_sorter.go:179-192 | the rest of the first region can still be walked after its first frame is gone |
| `Streams.Stream.Read` | repository/lucas-clemente/quic-go/stream.go:118-211 | copies the next bytes of the source to the buffer; each status (done, end, nothing to read, failed) has its exact cause; a short read happens only at the first gap |
| `Streams.ReadRunIsSlice` | repository/lucas-clemente/quic-go/stream.go:129-211 | what is read over several frames are the next bytes of the source, and a short read stops at the first gap |
| `Streams.EndIsReported` | repository/lucas-clemente/quic-go/stream.go:198-207 | the end is reported whenever it is reached: no frame that was used up without the report carries an end mark |
| `Streams.Stream.ReadLoop` | repository/lucas-clemente/quic-go/stream.go:129-211 | fills the buffer from as many frames as it takes |
| `Streams.Stream.CopyChunk` | repository/lucas-clemente/quic-go/stream.go:177-207 | copies what fits of the frame at the read position and drops it when it is used up |
| `Streams.ReadBelowGap` | repository/lucas-clemente/quic-go/stream.go:118-211 | reading never passes the first gap, and below it there is always a frame to read from |
| `Framer.SplitOff` | repository/lucas-clemente/quic-go/stream_framer.go:250-268 | the two parts of a frame carry its bytes in order, and only the second part carries its end mark |
| `Framer.StreamFramer.PopFramesForRetransmission` | repository/lucas-clemente/quic-go/stream_framer.go:134-168 | takes from the queue, within the limit, what the recursive definition takes |
| `Framer.AgainIsTaken` | repository/lucas-clemente/quic-go/stream_framer.go:134-168 | that is the front of the queue, cut between two frames or inside one whose parts rejoin, and it stops only when the next header does not fit |
| `Framer.StreamFramer.AddFrameForRetransmission` | repository/lucas-clemente/quic-go/stream_framer.go:32-34 | a lost frame goes behind the others |
| `FramingPass.CutFits` | repository/lucas-clemente/quic-go/stream_framer.go:180-233 | a new frame fits the room and the send window, continues the stream, and has the end mark exactly when nothing is left |
| `FramingPass.CutIsLargest` | repository/lucas-clemente/quic-go/stream_framer.go:180-233 | there is no frame exactly when no byte and no end mark would fit or nothing waits, and a frame carries as many bytes as wait, as the window allows, or as the room allows |
| `FramingPass.Pass.Visit` | repository/lucas-clemente/quic-go/stream_framer.go:175-242 | what one visit of a stream does, including the relabelling of a frame that has been emitted already |
| `FramingPass.Pass.VisitAll` | repository/lucas-clemente/quic-go/stream_framer.go:175-247 | visiting streams until one says stop: the streams, the frames, and whether the packet is exactly full, as a function of the inputs |
| `FramingPass.WalkConserves` | repository/lucas-clemente/quic-go/stream_framer.go:175-247 | each visited stream gives up exactly what its frame carries, and no other stream changes |
| `FramingPass.WalkIsGreedy` | repository/lucas-clemente/quic-go/stream_framer.go:175-247 | the visits stop only when the packet is full or a header does not fit; if they do not stop, every stream has sent what it had or what its window allows, or there was no room for a byte behind its header |
| `FramingPass.Pass.PopNormalFrames` | repository/lucas-clemente/quic-go/stream_framer.go:171-247 | frames and streams after a whole pass, as a function of the streams, windows, order and room |
| `FramingPass.Inputs.Conserves` | repository/lucas-clemente/quic-go/stream_framer.go:171-247 | the frames as they are cut fit the room and conserve every stream |
| `FramingPass.Inputs.SentIsCutIff` | repository/lucas-clemente/quic-go/stream_framer.go:180-186 | what is sent is what was cut if and only if not the first class fills the packet exactly with a stream of the second class to visit; in that case the last frame has the number of another stream |
| `FramingPass.Inputs.OverwrittenFitsIff` | repository/lucas-clemente/quic-go/stream_framer.go:180-186 | the length of a pass with an overwritten frame: the room, and the difference of the two headers |
| `FramingPass.ByteOnOtherStream` | repository/lucas-clemente/quic-go/stream_framer.go:180-186 | a byte of one stream goes out as a byte of another, and the frame is too long as soon as that one has sent something |
| `PacketPacker.PacketPacker.PopControlFrames` | repository/lucas-clemente/quic-go/packet_packer.go:233-246 | control frames are taken from the end of the queue while they fit, and not one fewer |
| `PacketPacker.PacketPacker.PopStreamFrames` | repository/lucas-clemente/quic-go/stream_framer.go:42-45 | frames to send again followed by the frames of a pass in the room that is left; the queue and the streams afterwards |
| `PacketPacker.PacketPacker.ComposeNextPacket` | repository/lucas-clemente/quic-go/packet_packer.go:209-277 | contents, streams and queue of every packet; it fits the original limit, although two more bytes were allowed, if and only if no overwritten header has got longer |
| `PacketPacker.FitsIff` | repository/lucas-clemente/quic-go/packet_packer.go:257-265 | the frames with the last length field left out fit if and only if no overwritten header has got longer |
| `PacketPacker.PacketTooLarge` | repository/lucas-clemente/quic-go/packet_packer.go:338-340 | a packet that is too large |
| `PacketPacker.LastLengthSavesTwo` | repository/lucas-clemente/quic-go/packet_packer.go:257-265 | leaving out the last length field saves the two bytes that were allowed |
| `Transport.StepKeepsInv` | repository/lucas-clemente/quic-go/stream.go:118-349 | every step of sender, network and receiver keeps the invariant that ties frames and buffers to the written bytes |
| `Transport.RunKeepsInv` | repository/lucas-clemente/quic-go/stream.go:118-349 | the invariant holds in every run: writing, cutting, splitting, loss, duplication, reordering, reading |
| `Transport.ReaderGetsPrefix` | repository/lucas-clemente/quic-go/stream.go:118-299 | in every run of a stream whose frames are sent as they are cut, what the reader has got is a prefix of what was written |
| `Connection.PassIsSends` | repository/lucas-clemente/quic-go/stream_framer.go:171-247 | on each stream, a pass without an overwritten frame sends exactly the frame that is cut from it |
| `Connection.PassKeepsInvIff` | repository/lucas-clemente/quic-go/stream_framer.go:171-247 | a pass keeps the frames of all streams true to their bytes if and only if it overwrites no frame |
| `Connection.ReadersGetPrefixes` | repository/lucas-clemente/quic-go/stream.go:118-299 | in every run of a connection without such a pass, every reader gets a prefix of what was written to its stream |
| `Connection.ReaderGetsForeignByte` | repository/lucas-clemente/quic-go/stream_framer.go:180-186 | a run with such a pass in which a reader gets a byte that was written to another stream |
| `Transport.NothingReceivedIsLost` | repository/lucas-clemente/quic-go/stream_frame_sorter.go:52-192 | once all bytes have arrived, the reader can always go on until it has all of them |
| `Transport.FinStaysExactIff` | repository/lucas-clemente/quic-go/stream_frame_sorter.go:123-129 | an end mark stays at the end of the stream if and only if the frame that carries it is not trimmed at its end |
| `Transport.EndOfStreamAfterLastByte` | repository/lucas-clemente/quic-go/stream.go:198-207 | under that condition the end of the stream is reported only after the last byte |
| `Transport.EarlyEndOfStream` | repository/lucas-clemente/quic-go/stream_frame_sorter.go:123-129 | a run in which the trimmed frame makes the reader stop one byte early |
| `StreamsMap.Streams.GetOrOpenStream` | repository/lucas-clemente/quic-go/streams_map.go:89-149 | the peer's streams are opened one by one up to the one asked for; every answer has its exact cause |
| `StreamsMap.Streams.GetOrOpenStreamType` | repository/lucas-clemente/quic-go/streams_map.go:154-213 | at most the next stream of the peer is opened, even if a later one was asked for |
| `StreamsMap.Streams.OpenRemoteStream` | repository/lucas-clemente/quic-go/streams_map.go:215-258 | counts and lists the peer's next stream, within the limit for incoming streams |
| `StreamsMap.Streams.OpenStreamImpl` | repository/lucas-clemente/quic-go/streams_map.go:259-293 | opens the next stream of our own, marked as reliable or not |
| `StreamsMap.Streams.PutStream` | repository/lucas-clemente/quic-go/streams_map.go:493-516 | lists a stream once |
| `StreamsMap.Streams.RemoveStream` | repository/lucas-clemente/quic-go/streams_map.go:519-546 | takes one stream out of list, map and counter |
| `StreamsMap.Streams.Unlist` | repository/lucas-clemente/quic-go/streams_map.go:531-541 | the list without the stream, and the round-robin index still at the stream it pointed at |
| `StreamsMap.IndexFollows` | repository/lucas-clemente/quic-go/streams_map.go:531-541 | the adjusted index points at the same stream; the other index, which is not adjusted, does if and only if it is in front of the cut |
| `StreamsMap.OpenOwnKeeps` | repository/lucas-clemente/quic-go/streams_map.go:259-293 | our next number has never been used |
| `StreamsMap.OpenPeerKeeps` | repository/lucas-clemente/quic-go/streams_map.go:215-258 | the peer's next number has never been used |
| `StreamsMap.RemoveKeeps` | repository/lucas-clemente/quic-go/streams_map.go:519-546 | removing keeps the invariant and no counter can go below zero |
| `StreamsMap.RunKeepsInv` | repository/lucas-clemente/quic-go/streams_map.go:89-293 | in every run, open and removed streams are exactly those opened so far, none is both, the list has no duplicates, and the counters are the numbers of open odd and even streams |
| `StreamsMap.NeverReopened` | repository/lucas-clemente/quic-go/streams_map.go:89-293 | a number that has been removed is never open again |
| `StreamsMap.Streams.RoundRobinIterate` | repository/lucas-clemente/quic-go/streams_map.go:431-484 | a pass visits the streams in the order given by the indices, up to the stops and errors of the callback, and moves the indices |
| `StreamsMap.Streams.VisitClass` | repository/lucas-clemente/quic-go/streams_map.go:448-483 | one loop of a pass: one class of streams, from an index on, until the callback stops it |
| `StreamsMap.Streams.VisitPrior` | repository/lucas-clemente/quic-go/streams_map.go:438-446 | the crypto stream and the header stream come first |
| `StreamsMap.RotatedDistinct` | repository/lucas-clemente/quic-go/streams_map.go:449-468 | starting at any index, each stream comes up exactly once |
| `StreamsMap.PassVisitsOnce` | repository/lucas-clemente/quic-go/streams_map.go:431-484 | a pass visits no stream twice, and only open ones |
| `StreamsMap.PassVisitsAll` | repository/lucas-clemente/quic-go/streams_map.go:431-484 | a pass that is allowed to send and is never stopped visits every open stream |
| `StreamsMap.NoStarvation` | repository/lucas-clemente/quic-go/streams_map.go:431-484 | pass after pass, as long as the open streams stay the same, every stream has been visited by the time that as many streams of its class have been served as there are open streams |
| `StreamsMap.MovedIs` | repository/lucas-clemente/quic-go/streams_map.go:453-477 | the index from which the next pass starts has moved by one for each stream that was served |
| `Scheduler.Choice.SelectPathLowLatency` | repository/lucas-clemente/quic-go/scheduler.go:198-278 | with one path, that path if it may send; for a duplicate, a path that has been used less if there is one; otherwise the best path |
| `Scheduler.Choice.Fastest` | repository/lucas-clemente/quic-go/scheduler.go:223-275 | for every order of the paths: none if no path is eligible, else a measured path with the lowest round-trip time, else one that has been used least |
| `Scheduler.Choice.Alternative` | repository/lucas-clemente/quic-go/scheduler.go:208-221 | a path that has been used less than the one a duplicate comes from, if there is one |
| `Scheduler.OrderDoesNotMatter` | repository/lucas-clemente/quic-go/scheduler.go:229-275 | two orders give equally good choices |
| `TlsHandshake.SharesOkIff` | repository/bifurcation/mint/client-state-machine.go:69-85 | the server can use every key share if and only if no group is offered twice with different keys |
| `TlsHandshake.StartOffers` | repository/bifurcation/mint/client-state-machine.go:68-293 | a start state sends a hello, and early data under the early keys, that fit the offer it remembers |
| `TlsHandshake.DhAgrees` | repository/bifurcation/mint/negotiation.go:25-49 | the secret of the negotiated group is the one the client computes |
| `TlsHandshake.PskIsOffered` | repository/bifurcation/mint/negotiation.go:55-116 | a chosen pre-shared key is the one the client offered |
| `TlsServer.NegotiateSuite` | repository/bifurcation/mint/negotiation.go:177-194 | the suite was offered, and is the one of the pre-shared key or a supported one |
| `TlsNegotiation.SuiteIsFirst` | repository/bifurcation/mint/negotiation.go:177-194 | it is the first offered suite that fits, and there is none only if no offered suite fits |
| `TlsNegotiation.DhIsFirst` | repository/bifurcation/mint/negotiation.go:25-49 | the exchange is with the first share whose group is supported and whose exchange succeeds, and there is none only if there is no such share |
| `TlsNegotiation.ModesAreKept` | repository/bifurcation/mint/negotiation.go:118-135 | a pre-shared key is used exactly if some offered mode allows it, with Diffie-Hellman only if a mode with it is offered and without it only if a mode without it is |
| `TlsNegotiation.ProtoIsFirst` | repository/bifurcation/mint/negotiation.go:196-217 | the protocol is the first offered one that is supported and, with a pre-shared key, the one of the key |
| `TlsNegotiation.NoProtoIsFound` | repository/bifurcation/mint/negotiation.go:211-216 | without one there is no protocol, and an error exactly if protocols were offered for a resumption |
| `TlsNegotiation.CertificateIsFirst` | repository/bifurcation/mint/negotiation.go:137-169 | it is the first certificate for the name whose key can use an offered scheme, with the first such scheme, and there is none exactly if no certificate fits |
| `TlsMessages.SelectCertificate` | repository/bifurcation/mint/negotiation.go:137-169 | the certificate is one of the server's, carries the name if one is asked for, and its key can use the chosen scheme |
| `TlsHandshake.NegotiationFits` | repository/bifurcation/mint/server-state-machine.go:84-374 | a server start state fails, negotiates something that fits the client's offer, or sends a retry with a cookie that opens to the hash of the hello |
| `TlsHandshake.RetryRejectsPsk` | repository/bifurcation/mint/client-state-machine.go:212-240 | after a retry a hello that offers a pre-shared key is always refused, because the two ends bind it to different transcripts |
| `TlsHandshake.FlightIsSent` | repository/bifurcation/mint/server-state-machine.go:426-700 | the server's first flight on the wire, its keys and its state |
| `TlsHandshake.FlightIsHeard` | repository/bifurcation/mint/client-state-machine.go:317-809 | unless the extension handler refuses, the client takes the whole flight, in every mode, and arrives at the server's transcript and handshake secrets |
| `TlsHandshake.FlightIsRefused` | repository/bifurcation/mint/client-state-machine.go:419-425 | if the extension handler refuses one of the two messages it is shown, the client fails and sends nothing |
| `TlsHandshake.SecondFlightIsSent` | repository/bifurcation/mint/client-state-machine.go:878-986 | the client's second flight on the wire and its keys |
| `TlsHandshake.SecondFlightIsHeard` | repository/bifurcation/mint/server-state-machine.go:775-1022 | the server takes the second flight and is connected with the client's secrets, unless the application refuses the client's certificate |
| `TlsHandshake.CondemnedIff` | repository/bifurcation/mint/server-state-machine.go:923-929 | the certificate messages of the client are refused if and only if a certificate is asked for, there is one, and the application refuses it |
| `TlsHandshake.EarlyDataIsTaken` | repository/bifurcation/mint/server-state-machine.go:720-755 | accepted early data and its end are read under the early keys |
| `TlsHandshake.EarlyDataIsDropped` | repository/bifurcation/mint/server-state-machine.go:683-687 | refused early data is skipped record by record |
| `TlsHandshake.FlightDecides` | repository/bifurcation/mint/server-state-machine.go:426-700 | the server's flight decides what the session ends in: agreement, a client that refused extensions, or a server that refused a certificate |
| `TlsAgreement.OutcomeIsStable` | repository/bifurcation/mint/client-state-machine.go:317-999 | no later step, in any order, changes what a session ends in |
| `TlsRuns.RunKeepsInv` | repository/bifurcation/mint/server-state-machine.go:84-1022 | the invariant of the whole session holds in every run of client, server and channels |
| `TlsRuns.EndsAgree` | repository/bifurcation/mint/client-state-machine.go:830-999 | in every run, if both ends are connected they hold equal parameters and equal client, server, exporter and resumption secrets |
| `TlsSecrets.SecretsDependOnAll` | repository/bifurcation/mint/client-state-machine.go:460-979 | without collisions of hash and key derivation, connected ends of any two runs hold the same client, server, exporter or resumption secret if and only if the runs have the same hash function, pre-shared key, Diffie-Hellman secret and messages up to the point that is hashed; secrets for different purposes are always different |
| `TlsSecrets.HeldSecrets` | repository/bifurcation/mint/server-state-machine.go:486-509 | the four secrets of a connected end, as the key schedule of section 7.1 of RFC 8446 over the pre-shared key, the Diffie-Hellman secret and the messages of the run |
| `TlsSecrets.HandshakeKeys` | repository/bifurcation/mint/server-state-machine.go:504-512 | the key of the server's flight, by the same schedule over the messages up to its hello |
| `TlsSecrets.EarlyDataKeys` | repository/bifurcation/mint/client-state-machine.go:216-262 | the early data on the wire, and that its key comes from the pre-shared key and the hello in front of it |
| `TlsSecrets.HellosAre` | repository/bifurcation/mint/client-state-machine.go:376-397 | what is hashed in front of the server's hello: the hello of the run, or the hash of its first hello, the request that answered it and its second hello |
| `TlsSecrets.ConnectedHasFlight` | repository/bifurcation/mint/client-state-machine.go:830-999 | no end gets connected without a flight of the server |
| `TlsSecrets.CertificateIsForName` | repository/bifurcation/mint/server-state-machine.go:560-626 | without a pre-shared key the server shows a certificate of its own for the name that the client is configured with |
| `TlsBinding.ConnectedMeansSameMessages` | repository/bifurcation/mint/client-state-machine.go:840-858 | whatever records a client is given: if the Finished message of some server connects it, the server has hashed the same hellos and the client the same flight |
| `TlsBinding.SignatureMeansSameMessages` | repository/bifurcation/mint/client-state-machine.go:770-783 | a client accepts a signature only over the messages that it has seen |
| `TlsBinding.ServerConnectsIff` | repository/bifurcation/mint/server-state-machine.go:983-1000 | a Finished message connects a server if and only if it was made with its key over its messages |
| `TlsBinding.ServerAcceptsSignature` | repository/bifurcation/mint/server-state-machine.go:908-929 | a server accepts a signature only over its own messages, and only with the approval of its application |
| `TlsBinding.BinderBinds` | repository/bifurcation/mint/negotiation.go:88-109 | a binder is made with one key, for one purpose and over one sequence of messages |
| `TlsBinding.ChosenKeyIsHeld` | repository/bifurcation/mint/negotiation.go:55-116 | a server takes the first pre-shared key that it knows, and only if its binder was made with that key for the hello it has got |
| `TlsBinding.ServerHashes` | repository/bifurcation/mint/server-state-machine.go:720-929 | a server hashes every message it takes behind its flight |
| `TlsBinding.ClientHashesAll` | repository/bifurcation/mint/client-state-machine.go:455-851 | a waiting client has hashed every message it was given, in order |
| `TlsRuns.LateFailureIsRefusal` | repository/bifurcation/mint/server-state-machine.go:426-1022 | once the server has sent its flight, an end fails only if its application refuses: the client's handler an extension list, or the server's check the client's certificate |
| `TlsRuns.RestIsOutcome` | repository/bifurcation/mint/server-state-machine.go:969-1022 | a session in which nothing can happen any more is what it was decided to end in |
| `TlsRuns.HandshakeCompletesIff` | repository/bifurcation/mint/client-state-machine.go:785-790 | a handshake that gets to the server's flight completes with agreement if and only if no application refuses; the client's own certificate check never matters, because the state that waits for the encrypted extensions is not given it |
| `TlsRuns.ConnectionsCompleteIff` | repository/bifurcation/mint/conn.go:620-635 | on connections the server's certificate check does not matter either, because it is not among the capabilities |
| `TlsRuns.ComesToRest` | repository/bifurcation/mint/client-state-machine.go:830-999 | every run with the server's flight can be continued until it rests |
| `TlsExamples.LawsHold` | repository/bifurcation/mint/crypto.go:217-470 | the laws assumed of the cryptography, also those without collisions, hold together |
| `TlsExamples.RunsEnd` | repository/bifurcation/mint/server-state-machine.go:923-929 | runs with and without a pre-shared key and early data that end in agreement although the client's check refuses everything, and one that the server's check ends |
| `TlsRuns.SettledStepsEnd` | repository/bifurcation/mint/client-state-machine.go:830-999 | the remaining steps come to an end |
| `TlsKeyUpdate.Connection.SendKeyUpdate` | repository/bifurcation/mint/state-machine.go:111-134 | the message goes out under the old secret, and the secret of that direction is derived anew; the other one stays |
| `TlsKeyUpdate.Connection.ProcessMessage` | repository/bifurcation/mint/state-machine.go:181-242 | what each message does to secrets and tickets, which secret an update derives anew, and which reply it draws |
| `TlsKeyUpdate.RunKeepsInv` | repository/bifurcation/mint/state-machine.go:111-242 | the invariant of both ends and both channels holds under every interleaving |
| `TlsKeyUpdate.SecretsDifferByUpdatesInFlight` | repository/bifurcation/mint/state-machine.go:181-216 | in each direction, writer and reader differ by exactly the updates on their way |
| `TlsKeyUpdate.SecretsAreIterated` | repository/bifurcation/mint/state-machine.go:111-216 | in every run each secret is the one of the handshake with the derivation of its direction applied as often as its end has written or read an update |
| `TlsKeyUpdate.UpdatesInFlight` | repository/bifurcation/mint/state-machine.go:111-216 | the updates on their way are the ones written and not yet read |
| `TlsKeyUpdate.EqualIffNoneInFlight` | repository/bifurcation/mint/state-machine.go:111-216 | for a derivation that never comes back to an earlier secret, writer and reader hold the same secret if and only if no update is on its way |
| `TlsKeyUpdate.LongerNeverRepeats` | repository/bifurcation/mint/state-machine.go:114-121 | there are derivations that never come back |
| `TlsKeyUpdate.UpdateChangesSecret` | repository/bifurcation/mint/state-machine.go:111-121 | and an end keeps its secret exactly as long as it writes no update |
| `TlsKeyUpdate.WaitingRecordsAreReadable` | repository/bifurcation/mint/state-machine.go:181-216 | the record that waits first can always be read |
| `TlsKeyUpdate.OneReplyPerRequest` | repository/bifurcation/mint/state-machine.go:194-216 | requests are replies plus requests on their way, so each request draws exactly one reply |
| `TlsKeyUpdate.QuietMeansEqual` | repository/bifurcation/mint/state-machine.go:181-216 | when nothing is on its way, both ends hold equal secrets and all requests are answered |
| `TlsKeyUpdate.ReadingEnds` | repository/bifurcation/mint/state-machine.go:181-216 | reading and replying comes to an end |
| `TlsKeyUpdate.TicketsAreShared` | repository/bifurcation/mint/state-machine.go:136-174 | every ticket of the client is known to the server with the same key |
| `TlsKeyUpdate.TicketsAreThoseIssued` | repository/bifurcation/mint/state-machine.go:136-174 | the server knows exactly the tickets it has issued, in order, each under the key derived from the resumption secret and its nonce |
| `TlsFraming.FrameReader.Process` | repository/bifurcation/mint/frame-reader.go:61-98 | returns the first frame of the bytes received if and only if it is complete, and keeps the bytes behind it |
| `TlsFraming.FrameReader.AddChunk` | repository/bifurcation/mint/frame-reader.go:55-59 | received bytes go behind the pending ones |
| `TlsFraming.FrameReader.Needed` | repository/bifurcation/mint/frame-reader.go:47-53 | nothing is needed exactly when the current part of the frame is there |
| `TlsFraming.TakeFrameIsUnique` | repository/bifurcation/mint/frame-reader.go:61-98 | a frame can be cut off a byte stream in one way only |
| `TlsFraming.FramesAreUnique` | repository/bifurcation/mint/frame-reader.go:61-98 | the frames cut off are the ones put in, however the stream was chunked |
| `TlsRecords.RecordLayer.Rekey` | repository/bifurcation/mint/record-layer.go:73-85 | a new key starts counting at zero with its own nonce |
| `TlsRecords.RecordLayer.IncrementSequenceNumber` | repository/bifurcation/mint/record-layer.go:87-104 | after k records the nonce is the vector combined with big-endian k; it gives up exactly at the limit of the counter |
| `TlsRecords.NoncesDiffer` | repository/bifurcation/mint/record-layer.go:87-104 | no two records under one key have the same nonce |
| `TlsRecords.RecordLayer.Encrypt` | repository/bifurcation/mint/record-layer.go:106-127 | the protected record for the current number |
| `TlsRecords.RecordLayer.Decrypt` | repository/bifurcation/mint/record-layer.go:129-159 | the only unpadding of the opened content, or the exact failure |
| `TlsRecords.UnpadIff` | repository/bifurcation/mint/record-layer.go:129-159 | unpadding recovers type, content and pad length if and only if the type is not zero |
| `TlsRecords.ReadWhatWasWritten` | repository/bifurcation/mint/record-layer.go:106-270 | what was written as record k is read as record k if and only if its type is not zero under a cipher, or a known one without |
| `TlsRecords.RecordLayer.WriteRecordWithPadding` | repository/bifurcation/mint/record-layer.go:276-296 | writes exactly one record if and only if it is not too large |
| `TlsRecords.RecordLayer.NextRecord` | repository/bifurcation/mint/record-layer.go:187-270 | the next record of the byte stream, which is kept; the number goes up once per record |
| `TlsRecords.RecordLayer.ReadRecord` | repository/bifurcation/mint/record-layer.go:177-185 | the next record, which is then gone |
| `TlsRecords.RecordLayer.PeekRecordType` | repository/bifurcation/mint/record-layer.go:161-175 | the type of the next record of the byte stream, which stays to be read |
| `TlsHandshakeLayer.MarshalFitsIff` | repository/bifurcation/mint/handshake-layer.go:40-53 | a message can be cut out again if and only if its body is shorter than the limit |
| `TlsHandshakeLayer.LargestMessageIsLost` | repository/bifurcation/mint/handshake-layer.go:219-227 | a body of exactly the limit passes the check and is sent with length zero |
| `TlsHandshakeLayer.WritableIff` | repository/bifurcation/mint/record-layer.go:276-285 | with a cipher, a fragment is written if and only if type, padding and overhead fit as well |
| `TlsHandshakeLayer.FragmentsJoin` | repository/bifurcation/mint/handshake-layer.go:213-254 | the fragments put together are the messages |
| `TlsHandshakeLayer.HandshakeLayer.WriteMessages` | repository/bifurcation/mint/handshake-layer.go:213-254 | the records written are the first fragments of the joined messages, all of them if it succeeds |
| `TlsHandshakeLayer.HandshakeLayer.ReadMessage` | repository/bifurcation/mint/handshake-layer.go:174-207 | if the stream holds written messages, the next one is returned; when nothing comes and all bytes have arrived, there is none left |
| `TlsHandshakeLayer.HandshakeLayer.ReadRecord` | repository/bifurcation/mint/handshake-layer.go:130-155 | adds the content of the next record and stays in step with the writer |
| `TlsHandshakeLayer.WritingKeepsInStep` | repository/bifurcation/mint/handshake-layer.go:213-254 | writing more messages keeps the reader in step |
| `TlsHandshakeLayer.RecordIsNext` | repository/bifurcation/mint/record-layer.go:187-270 | the record that is read next is the one that was written next |
| `TlsHandshakeLayer.MessageIsNext` | repository/bifurcation/mint/handshake-layer.go:174-207 | the message that is read next is the one that was written next |
| `TlsHandshakeLayer.NothingMore` | repository/bifurcation/mint/handshake-layer.go:174-207 | when nothing can be cut off any more, all messages have been read |
| `TlsPipe.ReadInOrder` | repository/bifurcation/mint/handshake-layer.go:174-254 | under any interleaving of writing and reading, the messages read are the first ones written, in order, and no read fails |
| `TlsPipe.AllIsRead` | repository/bifurcation/mint/handshake-layer.go:174-254 | when nothing can be cut off any more, everything written has been read |
| `GcmField.HornerIsStandard` | repository/lucas-clemente/aes12/gcm.go:236-267 | digit by digit from the front is the multiplication of section 6.3 of NIST SP 800-38D |
| `GcmField.TableReduces` | repository/lucas-clemente/aes12/gcm.go:231-234 | each entry of the reduction table is four reductions by the polynomial |
| `GcmField.FourDoubles` | repository/lucas-clemente/aes12/gcm.go:249-253 | shifting by four and adding a table entry multiplies by x^4 |
| `GcmField.MakeTable` | repository/lucas-clemente/aes12/gcm.go:87-118 | entry i of the product table is the multiple of the key by i with its bits reversed |
| `GcmField.MulWord` | repository/lucas-clemente/aes12/gcm.go:246-263 | one word of the multiplication, four bits at a time |
| `GcmField.Mul` | repository/lucas-clemente/aes12/gcm.go:237-267 | the table-driven product is the bit-by-bit product, for every element and key |
| `Gcm.GetOfPut` | repository/lucas-clemente/aes12/gcm.go:380-401 | reading a word back from its bytes |
| `Gcm.IncCounter` | repository/lucas-clemente/aes12/gcm.go:295-302 | counts the last four bytes up modulo 2^32 |
| `Gcm.GcmMode.UpdateBlocks` | repository/lucas-clemente/aes12/gcm.go:271-278 | the hash over whole blocks |
| `Gcm.GcmMode.Update` | repository/lucas-clemente/aes12/gcm.go:282-291 | the hash over data padded with zeros |
| `Gcm.GcmMode.DeriveCounter` | repository/lucas-clemente/aes12/gcm.go:342-360 | the pre-counter block, for every nonce length |
| `Gcm.GcmMode.CounterCrypt` | repository/lucas-clemente/aes12/gcm.go:320-337 | in place, the input combined with the key stream, block by block |
| `Gcm.GcmMode.Auth` | repository/lucas-clemente/aes12/gcm.go:364-378 | the masked hash of data, text and lengths |
| `Gcm.GcmMode.Seal` | repository/lucas-clemente/aes12/gcm.go:134-153 | the sealed text of section 7.1, with the tag cut to twelve bytes |
| `Gcm.GcmMode.Open` | repository/lucas-clemente/aes12/gcm.go:157-193 | the plaintext, or nothing if text or tag does not fit (section 7.2) |
| `Gcm.CryptTwice` | repository/lucas-clemente/aes12/gcm.go:320-337 | encrypting twice gives the text back |
| `Gcm.OpenIffSealed` | repository/lucas-clemente/aes12/gcm.go:134-193 | opening gives a plaintext if and only if the text is that plaintext sealed |
| `YamlParser.Parser.Parse` | repository/yaml.v2/parserc.go:62-73 | for any tokens, one event that the events before it allow, with stacks that never underflow and progress towards the end; nothing behind the end or a failure |
| `YamlParser.Parser.StateMachine` | repository/yaml.v2/parserc.go:93-169 | does what the grammar table says for the current state, in every state |
| `YamlParser.Parser.ParseNode` | repository/yaml.v2/parserc.go:359-573 | an alias, or properties and content, as in the grammar |
| `YamlParser.Parser.ParseContent` | repository/yaml.v2/parserc.go:452-573 | the content behind the properties, with its implicit flags |
| `YamlParser.Parser.ParseProperties` | repository/yaml.v2/parserc.go:383-428 | an anchor and a tag in either order |
| `YamlParser.Parser.FindTag` | repository/yaml.v2/parserc.go:430-450 | the full tag by the first directive with the handle |
| `YamlParser.Parser.ParseBlockSequenceEntry` | repository/yaml.v2/parserc.go:579-626 | entries of a block sequence |
| `YamlParser.Parser.ParseIndentlessSequenceEntry` | repository/yaml.v2/parserc.go:631-663 | entries of a sequence without indentation |
| `YamlParser.Parser.ParseBlockMappingKey` | repository/yaml.v2/parserc.go:675-721 | keys of a block mapping |
| `YamlParser.Parser.ParseBlockMappingValue` | repository/yaml.v2/parserc.go:733-756 | values of a block mapping |
| `YamlParser.Parser.ParseFlowSequenceEntry` | repository/yaml.v2/parserc.go:770-826 | entries of a flow sequence, and the start of a single pair |
| `YamlParser.Parser.ParsePairKey` | repository/yaml.v2/parserc.go:833-848 | the key of a single pair |
| `YamlParser.Parser.ParsePairValue` | repository/yaml.v2/parserc.go:854-872 | the value of a single pair |
| `YamlParser.Parser.ParsePairEnd` | repository/yaml.v2/parserc.go:878-890 | the end of a single pair |
| `YamlParser.Parser.ParseFlowMappingKey` | repository/yaml.v2/parserc.go:904-964 | keys of a flow mapping |
| `YamlParser.Parser.ParseFlowMappingValue` | repository/yaml.v2/parserc.go:970-992 | values of a flow mapping, also of a key without one |
| `YamlParser.Parser.ParseDocumentStart` | repository/yaml.v2/parserc.go:198-276 | the start of a document, with its directives, or the end of the stream |
| `YamlParser.Parser.ParseDocumentContent` | repository/yaml.v2/parserc.go:282-298 | the content of an explicit document, which may be empty |
| `YamlParser.Parser.ParseDocumentEnd` | repository/yaml.v2/parserc.go:305-331 | the end of a document; its directives are forgotten |
| `YamlParser.Parser.ProcessDirectives` | repository/yaml.v2/parserc.go:1013-1072 | at most one version, which is 1.1, no handle twice, and the default handles |
| `YamlParser.Parser.AppendTagDirective` | repository/yaml.v2/parserc.go:1075-1095 | a directive is added unless its handle is taken |
| `YamlParser.AfterCommaInMapping` | repository/yaml.v2/parserc.go:915-931 | behind a comma a flow mapping goes on as behind its start |
| `YamlNesting.StepIsGood` | repository/yaml.v2/parserc.go:93-1005 | every event is allowed where it comes, and the stacks of states and marks stay sound |
| `YamlNesting.StepProgresses` | repository/yaml.v2/parserc.go:93-1005 | every event takes a token or lowers the number of events that can come without one |
| `YamlNesting.RunIsNested` | repository/yaml.v2/parserc.go:93-1005 | for every sequence of tokens, the events are a prefix of a well-nested stream in which every key has a value |
| `YamlContents.EventsSpellTokens` | repository/yaml.v2/parserc.go:93-1005 | for every run over every sequence of tokens: the tokens taken fall into one piece for each event, and each piece spells its event: its indicators, its anchor, its tag joined from the directive in force, its content and style, and for a document its directives |
| `YamlContents.EventsSayTokens` | repository/yaml.v2/parserc.go:359-571 | the anchors, alias names and scalar values of the events are those of the tokens taken so far, in the same order |
| `YamlPhrases.GrammarIsParsed` | repository/yaml.v2/parserc.go:7-43 | every derivation of the grammar in the comment, but for the two exceptions below, is parsed: all of its tokens are taken and exactly its events come out |
| `YamlPhrases.NodeParses` | repository/yaml.v2/parserc.go:359-571 | the tokens of a node, whatever follows it, give the events of the node |
| `YamlPhrases.ValueWithoutKeyFails` | repository/yaml.v2/parserc.go:666-721 | a value without a key, which the comment allows in a block mapping, is always refused |
| `YamlPhrases.PairWithoutKeyFails` | repository/yaml.v2/parserc.go:830-849 | a single pair with a value whose key is missing, which the comment allows, gets two empty scalars and is then refused |
| `YamlTree.Builder.Skip` | repository/yaml.v2/decode.go:67-77 | the next event, or the parser has failed |
| `YamlTree.Builder.Parse` | repository/yaml.v2/decode.go:105-123 | any node; an event that cannot begin one never comes up |
| `YamlTree.Builder.Scalar` | repository/yaml.v2/decode.go:153-161 | a scalar node for one event, with its anchor |
| `YamlTree.Builder.Alias` | repository/yaml.v2/decode.go:146-151 | an alias node for one event |
| `YamlTree.Builder.Sequence` | repository/yaml.v2/decode.go:163-172 | a sequence node that flattens to its events |
| `YamlTree.Builder.Mapping` | repository/yaml.v2/decode.go:174-183 | a mapping node that flattens to its events, with an even number of children |
| `YamlTree.Builder.Document` | repository/yaml.v2/decode.go:133-144 | a document node whose events end where they should, and its anchors |
| `YamlTree.Load` | repository/yaml.v2/decode.go:40-58 | for any tokens: nothing, a failure of the parser, or the tree of the first document |
| `YamlTree.TreeIsUnique` | repository/yaml.v2/decode.go:105-183 | a tree is determined by the events it flattens to |
| `YamlTree.ResultIsUnique` | repository/yaml.v2/decode.go:105-183 | tokens have only one result: failure, emptiness and each tree exclude each other |
| `YamlTree.AnchorIsLast` | repository/yaml.v2/decode.go:99-103 | an anchor stands for the last node that carries it |
| `YamlTree.AnchorsResolve` | repository/yaml.v2/decode.go:99-103 | every anchor of a document names a node of its tree |
| `YamlStream.LoadStream` | repository/yaml.v2/decode.go:40-58 | from the pieces of a text through scanner, parser and builder: the result for the tokens that the scanner hands out |
| `YamlStream.StreamResultIsUnique` | repository/yaml.v2/decode.go:40-58 | a text has only one result |
| `YamlStream.EmptyIsDone` | repository/yaml.v2/parserc.go:198-276 | a text is found empty only if the scanner has got to its end |
| `YamlEmitText.Emitter.WriteDoubleQuoted` | repository/yaml.v2/emitterc.go:1428-1547 | the text of a string, character by character, with its escapes and folded lines |
| `YamlEmitText.Emitter.WriteCharacter` | repository/yaml.v2/emitterc.go:1434-1539 | one character as it is, as an escape, or as part of a fold |
| `YamlEmitText.Emitter.WriteSpace` | repository/yaml.v2/emitterc.go:1519-1533 | a space, or a fold in its place, followed by a backslash in front of another space |
| `YamlEmitText.Emitter.WriteIndent` | repository/yaml.v2/emitterc.go:1200-1218 | a line break where one is needed, and the indentation or the rest of it |
| `YamlEmitText.Emitter.Decode` | repository/yaml.v2/emitterc.go:1439-1457 | the number of a UTF-8 character |
| `YamlEmitText.Emitter.PutEscape` | repository/yaml.v2/emitterc.go:1463-1514 | the escape for a character |
| `YamlEmitText.CharacterTests` | repository/yaml.v2/yamlprivateh.go:57-108 | the tests on bytes ask what they are meant to ask about characters |
| `YamlScanText.Scanner.ScanDoubleQuoted` | repository/yaml.v2/scannerc.go:2305-2558 | the value and the end of the scalar as defined by its units, or a failure exactly where the text is malformed |
| `YamlScanText.Scanner.ScanRound` | repository/yaml.v2/scannerc.go:2312-2540 | one round: characters up to white space, and the white space |
| `YamlScanText.Scanner.ReadNonBlanks` | repository/yaml.v2/scannerc.go:2338-2476 | characters and escapes up to white space, a quote or an escaped line break |
| `YamlScanText.Scanner.ReadEscape` | repository/yaml.v2/scannerc.go:2364-2468 | the meaning of an escape, or a failure |
| `YamlScanText.Scanner.ReadBlanks` | repository/yaml.v2/scannerc.go:2489-2519 | white space and line breaks, as they are kept |
| `YamlScanText.Scanner.Join` | repository/yaml.v2/scannerc.go:2521-2539 | a single line break becomes a space |
| `YamlScanText.Scanner.ReadLine` | repository/yaml.v2/scannerc.go:538-568 | a line break, made into a line feed unless it is a separator |
| `YamlRoundTrip.CodeIs` | repository/yaml.v2/emitterc.go:1463-1514 | every escape is a letter for the character, or its number |
| `YamlRoundTrip.ReadsFold` | repository/yaml.v2/emitterc.go:1520-1529 | a fold is read as one space |
| `YamlRoundTrip.ReadsBack` | repository/yaml.v2/emitterc.go:1428-1547 | scanning what was written yields the string, for every string, line width, positive indent, line-break style and unicode setting, whatever follows |
| `YamlRoundTrip.WriteAndScan` | repository/yaml.v2/scannerc.go:2305-2558 | emitter and scanner together give the value back and leave the rest of the text |
| `YamlScanner.Scanner.InsertToken` | repository/yaml.v2/apic.go:8-25 | the queue with the token at its position, whether the slice is compacted or not |
| `YamlScanner.Scanner.FetchMoreTokens` | repository/yaml.v2/scannerc.go:626-662 | fetches until no key can name the first token; state, failure and panic as the recursive definition says |
| `YamlScanner.Scanner.NeedMoreTokens` | repository/yaml.v2/scannerc.go:632-650 | more tokens are needed exactly while the queue is empty or a key names its first token |
| `YamlScanner.Scanner.FetchNextToken` | repository/yaml.v2/scannerc.go:665-838 | state, failure and panic for every input and every state that keeps the invariant |
| `YamlScanner.Scanner.GoToNextToken` | repository/yaml.v2/scannerc.go:676-689 | gives up keys, or fails because one was required, and closes the blocks that the token is not part of |
| `YamlScanner.Scanner.StaleSimpleKeys` | repository/yaml.v2/scannerc.go:842-863 | gives up exactly the keys that are too old, unless one was required |
| `YamlScanner.Scanner.SaveSimpleKey` | repository/yaml.v2/scannerc.go:867-897 | the key names the token that comes next; failure and panic happen exactly under their conditions |
| `YamlFetch.PanicsIff` | repository/yaml.v2/scannerc.go:867-878 | fetching panics if and only if a token that may be a key starts at the current indentation, outside flow collections, where no key is allowed and no line has ended |
| `YamlTokens.ScannerPanics` | repository/yaml.v2/scannerc.go:867-878 | a text of nine characters on which the scanner panics |
| `YamlScanner.Scanner.RemoveSimpleKey` | repository/yaml.v2/scannerc.go:900-913 | gives up the key of the level, unless it was required |
| `YamlScanner.Scanner.RollIndent` | repository/yaml.v2/scannerc.go:937-961 | opens a block at a token or at the end, if the column is deeper |
| `YamlScanner.Scanner.UnrollIndent` | repository/yaml.v2/scannerc.go:966-987 | closes the blocks that are deeper, and never pops an empty stack |
| `YamlScanner.Scanner.FetchBoundary` | repository/yaml.v2/scannerc.go:1046-1102 | directives and document marks close everything; fails exactly if a key is required |
| `YamlScanner.Scanner.FetchStreamEnd` | repository/yaml.v2/scannerc.go:1016-1044 | the end of the stream starts a new line and closes everything |
| `YamlScanner.Scanner.FetchFlowCollectionStart` | repository/yaml.v2/scannerc.go:1105-1133 | may be a key, and opens a level; fails and panics as a key does |
| `YamlScanner.Scanner.FetchFlowCollectionEnd` | repository/yaml.v2/scannerc.go:1136-1165 | gives up the key of the level and closes it; fails exactly if that key is required |
| `YamlScanner.Scanner.FetchIndicator` | repository/yaml.v2/scannerc.go:1193-1271 | an entry or an explicit key, and the block it may open; fails exactly where keys are not allowed or one is required |
| `YamlScanner.Scanner.FetchValue` | repository/yaml.v2/scannerc.go:1274-1336 | a possible key gets its tokens just in front of itself; otherwise a block may open |
| `YamlScanner.Scanner.InsertKey` | repository/yaml.v2/scannerc.go:1279-1303 | the token of the key, and the start of a mapping in front of it if it is deeper, just before the token that the key names |
| `YamlScanner.Scanner.FetchKeyToken` | repository/yaml.v2/scannerc.go:1339-1374 | anchors, aliases, tags and scalars may be keys; fails exactly if a key is required or the text is malformed |
| `YamlScanner.Scanner.TakeToken` | repository/yaml.v2/scannerc.go:571-597 | hands out the first token and keeps the invariant |
| `YamlScanner.ScanAll` | repository/yaml.v2/scannerc.go:571-662 | the tokens and the end of every stream, as the recursive definition says, with the properties below |
| `YamlTokens.TokensAreSound` | repository/yaml.v2/scannerc.go:571-662 | for every stream: blocks are balanced; the first token starts the stream; without those added for the structure, the tokens are those of the text in order; the scanner is done exactly when the end was handed out; and outside flow collections nothing is open then |
| `YamlBlocks.TokensAreInPlace` | repository/yaml.v2/scannerc.go:937-1336 | for every text, every token is in its place: what follows the start of a collection and the mark of a key, how entries, keys and values stand to the innermost block, and where blocks open and close |
| `YamlBlocks.StartIsFollowed` | repository/yaml.v2/scannerc.go:1193-1336 | the start of a block sequence is followed by an entry, that of a block mapping by a key or a value, at the same position |
| `YamlBlocks.IndicatorHasBlock` | repository/yaml.v2/scannerc.go:937-961 | outside flow collections an entry, a key, or a value without a key stands at the column of the innermost open block, so one has opened for it if it is deeper |
| `YamlBlocks.KeyIsInFront` | repository/yaml.v2/scannerc.go:1279-1303 | the mark of a key stands directly in front of the token that is the key |
| `YamlTokens.FetchKeeps` | repository/yaml.v2/scannerc.go:665-838 | fetching keeps the invariant, and adds exactly the token of the text |
| `YamlTokens.InvWithKey` | repository/yaml.v2/scannerc.go:1274-1303 | the tokens of a key come in front of it and behind every end of the stream |
| `YamlQueue.OkKey` | repository/yaml.v2/scannerc.go:1274-1336 | a possible key names a token that is still in the queue, its own, so its tokens come in time |
| `YamlQueue.OkSave` | repository/yaml.v2/scannerc.go:867-897 | a new key of a level names the next token, behind the keys of the outer levels |
| `YamlQueue.OkTake` | repository/yaml.v2/scannerc.go:626-662 | a token that no key names can be handed out |
| `YamlQueue.OkClose` | repository/yaml.v2/scannerc.go:966-987 | starts minus ends is the depth of the indentation stack |
| `YamlQueue.InsertBalanced` | repository/yaml.v2/scannerc.go:937-961 | a start may be inserted anywhere without unbalancing the blocks |
| `YamlTokens.InvClose` | repository/yaml.v2/scannerc.go:966-987 | closing blocks appends their ends, stops at the column and keeps the invariant |
| `Lru.Cache.Add` | repository/hashicorp/golang-lru/simplelru/lru.go:51-70 | the entry is put in the list, which is kept within its size, and whether another one was evicted |
| `Lru.Cache.Get` | repository/hashicorp/golang-lru/simplelru/lru.go:73-79 | the value, and the entry is put in the list again |
| `Lru.Cache.Remove` | repository/hashicorp/golang-lru/simplelru/lru.go:99-105 | the entry is gone |
| `Lru.Cache.RemoveOldest` | repository/hashicorp/golang-lru/simplelru/lru.go:108-116 | the oldest entry is gone |
| `Lru.PutIs` | repository/hashicorp/golang-lru/simplelru/lru.go:51-70 | an insertion loses at most one other entry, and only from a full list |
| `Lru.OrderIsByUse` | repository/hashicorp/golang-lru/simplelru/lru.go:51-105 | after any operations, a key stands before another one if and only if its last use, by adding it or looking it up, was earlier |
| `Lru.LosesLeastRecent` | repository/hashicorp/golang-lru/simplelru/lru.go:51-70 | adding a new key to a full list loses exactly the entry whose last use is the earliest; otherwise nothing is lost |
| `Lru.RunKeeps` | repository/hashicorp/golang-lru/simplelru/lru.go:51-116 | after any operations, each value is the one added last, and there are not too many |
| `TwoQueue.New2QParams` | repository/hashicorp/golang-lru/2q.go:47-85 | the parameters that are accepted; the part for recent entries is the whole cache only for a ratio of one |
| `TwoQueue.TwoQueueCache.Get` | repository/hashicorp/golang-lru/2q.go:87-106 | the value that is held, and the entry is promoted |
| `TwoQueue.TwoQueueCache.Add` | repository/hashicorp/golang-lru/2q.go:108-140 | the state after adding an entry |
| `TwoQueue.TwoQueueCache.EnsureSpace` | repository/hashicorp/golang-lru/2q.go:143-161 | which list loses its oldest entry |
| `TwoQueue.TwoQueueCache.Remove` | repository/hashicorp/golang-lru/2q.go:177-189 | the key is gone from all lists |
| `TwoQueue.AddedKeeps` | repository/hashicorp/golang-lru/2q.go:108-161 | the lists stay disjoint, the entry is there with its value, and the size is kept if and only if not all of a full cache is recent and a lost key comes back |
| `TwoQueue.LookLosesNothing` | repository/hashicorp/golang-lru/2q.go:87-106 | looking a key up loses no entry |
| `TwoQueue.HitIsLastAdded` | repository/hashicorp/golang-lru/2q.go:87-189 | after any operations, whatever is held is the value added last |
| `TwoQueue.ListsAreByUse` | repository/hashicorp/golang-lru/2q.go:87-189 | after any operations, the recent and the frequent entries are in the order of their last use |
| `TwoQueue.AddedLoses` | repository/hashicorp/golang-lru/2q.go:108-161 | adding loses nothing if the key is held or there is space, else exactly the oldest entry of the part that has to give one up; the key of a recent one is remembered |
| `TwoQueue.LosesLeastRecent` | repository/hashicorp/golang-lru/2q.go:143-161 | in every run, what is lost is the entry of its part whose last use is the earliest |
| `TwoQueue.UsedAgainIsFrequent` | repository/hashicorp/golang-lru/2q.go:87-140 | a new key becomes a recent one; a key used again or back from its eviction a frequent one |
| `TwoQueue.SizeIsKept` | repository/hashicorp/golang-lru/2q.go:108-161 | after any operations, the size is kept if the recent part is smaller than the cache |
| `TwoQueue.AtMostOneTooMany` | repository/hashicorp/golang-lru/2q.go:87-189 | after any operations and for all parameters, there is at most one entry too many |
| `TwoQueue.Overflows` | repository/hashicorp/golang-lru/2q.go:143-161 | if it is not, a run that makes the cache too large |
| `Arc.ArcCache.Get` | repository/hashicorp/golang-lru/arc.go:63-82 | the value that is held, and the entry is promoted |
| `Arc.ArcCache.Add` | repository/hashicorp/golang-lru/arc.go:85-177 | the state after adding an entry |
| `Arc.ArcCache.Replace` | repository/hashicorp/golang-lru/arc.go:181-194 | which list loses its oldest entry, and where its key is kept |
| `Arc.ArcCache.Remove` | repository/hashicorp/golang-lru/arc.go:213-228 | the key is gone from all lists |
| `Arc.WithSpaceKeeps` | repository/hashicorp/golang-lru/arc.go:181-194 | replacing evicts exactly one entry unless the first list is the whole cache and is preferred that much |
| `Arc.AddedKeeps` | repository/hashicorp/golang-lru/arc.go:85-194 | the lists stay disjoint, the entry is there with its value, and the size is kept if and only if not a lost key comes back to a full first list |
| `Arc.RunKeeps` | repository/hashicorp/golang-lru/arc.go:63-228 | after any operations: disjoint lists, a preference within the size, values added last, and at most one entry too many |
| `Arc.ListsAreByUse` | repository/hashicorp/golang-lru/arc.go:63-228 | after any operations, both lists of entries are in the order of their last use |
| `Arc.AddedLoses` | repository/hashicorp/golang-lru/arc.go:85-194 | adding loses nothing if the key is held or there is space, else exactly the entry that the new preference points at |
| `Arc.LosesLeastRecent` | repository/hashicorp/golang-lru/arc.go:181-194 | in every run, what is lost is the entry of its list whose last use is the earliest |
| `Arc.PreferenceMoves` | repository/hashicorp/golang-lru/arc.go:103-160 | a key that the first list has lost raises the preference for it and one that the second has lost lowers it, by the ratio of the lists of lost keys; nothing else moves it |
| `Arc.UsedAgainIsFrequent` | repository/hashicorp/golang-lru/arc.go:63-177 | a new key goes to the first list; a key used again or back from its eviction to the second |
| `Arc.SizeIsKept` | repository/hashicorp/golang-lru/arc.go:85-194 | the size is kept in every run without the one overfilling step |
| `Arc.OneTooMany` | repository/hashicorp/golang-lru/arc.go:181-194 | a cache for one entry ends up with two |
| `Fnv128.Sum128a.Write` | repository/lucas-clemente/fnv128a/fnv128a.go:40-79 | hashes bytes of any number, in four limbs, to the value of the definition modulo 2^128 |
| `Fnv128.Sum128a.Multiply` | repository/lucas-clemente/fnv128a/fnv128a.go:58-72 | in words of 64 bits, the product with the prime, although the last limb overflows |
| `Fnv128.Sum128a.Sum128` | repository/lucas-clemente/fnv128a/fnv128a.go:36-38 | the two halves of the hash |
| `Fnv128.MulStep` | repository/lucas-clemente/fnv128a/fnv128a.go:58-72 | limbs with carries are the product with 2^88 + 0x13B modulo 2^128 |
| `Fnv128.XorFirst` | repository/lucas-clemente/fnv128a/fnv128a.go:46-47 | combining the whole value with a byte changes only the first limb |
| `Fnv128.HashInParts` | repository/lucas-clemente/fnv128a/fnv128a.go:40-79 | hashing in parts is hashing the whole |

## Left out

- Timers, goroutines, locks, sockets and the session loop around the stream transport; the decision to fill a gap
  of an unreliable stream with zeros is an input of `FrameSorter.Sorter.Head`.
- Frame and packet encoding: the length of a header is a function; STOP_WAITING and ACK frames are a fixed length.
- Flow control and congestion control: send windows and permission to send are inputs.
- FrameSorter.Sorter.Push: promises nothing about the gap list for frames that end at the largest byte count, where
  the source has already changed it when it gives up.
- Connection.ReadersGetPrefixes: filling gaps of unreliable streams with zeros is not among its steps, and each stream has a queue of
  its own for frames that are sent again.
- StreamsMap.Streams.RoundRobinIterate: the callback is a function of the stream; stream numbers and indices do not wrap around at 2^32.
- `Iterate`, `AcceptStream`, waiting for streams and closing with an error: loops without decisions of their own.
- Round-robin path selection: the same loop as the choice by quota.
- X.509, signatures, key derivation and Diffie-Hellman are functions with laws: both sides of an exchange agree,
  signatures verify, cookies open, secrets for different purposes differ; `TlsSecrets` and `TlsBinding` assume that there are no
  collisions.
- What an extension handler adds to or takes from a message: it only says whether it goes along with it. Alerts that a failed end
  sends to the other.
- TlsRuns.ConnectionsCompleteIff: of setting up a connection only the missing certificate check is modelled.
- AES itself, and the assembly versions of it.
- Reading YAML characters: the scanner's buffer is the whole text followed by zeros, and text that is not UTF-8 is a failure.
- The scanners for plain, single-quoted and block scalars, tags, anchors and directives: whether their text is well formed is an
  input of `YamlScanner`, and so are their positions.
- YamlScanner.Scanner.FetchMoreTokens: comes back without a token when its inputs are used up, where the source would go on with
  the next characters.
- YamlPhrases.GrammarIsParsed: not for a single pair in a flow sequence whose key is missing, nor for a value without a key in
  a block mapping; a handle must not stand for an empty tag, and the positions of events are not compared.
- YamlBlocks.TokensAreInPlace: for texts, whose positions advance from piece to piece.
- Which texts the scanner refuses, apart from the conditions of each of its methods.
- End positions of events, and the position of an empty value in a single pair when the token queue is compacted under the pointer to it.
- YamlTree.Builder.Sequence: nodes are values with the number of their first event, and an anchor maps to such a number, so sharing
  of nodes between a tree and its anchors is by number.
- YamlRoundTrip.ReadsBack: only for a positive indent, which the emitter always has inside a scalar.
- The emitter's output buffer and its flushing: what has been written is one sequence.
- The other scalar styles, the event queue of the emitter, and decoding trees into Go values.
- TwoQueue.New2QParams: ratios are real numbers, without the rounding of floating point.
- Reading keys and purging the caches, and their locks.
