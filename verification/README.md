# go-hashgrid: a verified model

A Dafny model of the parts of go-hashgrid that carry its logic, with proofs about them:

- **RLP** (`RlpSpec`, `RlpTypes`, `RlpEncode`, `RlpReader`, `RlpStream`, `RlpPlain`, `RlpMeaning`, `RlpDecode`, `RlpRaw`, `RlpRoundTrip`,
  `RlpEvent`): the Recursive Length Prefix codec of Appendix B of the Ethereum Yellow Paper. One recursive definition,
  `Enc` on items, is the reference. The encoder's flat buffer with deferred list headers, its three ways out (`toBytes`,
  `toWriter`, the resumable reader), the stateful stream decoder, the second header parser of `raw.go`, and the typed
  decoders are all proved against it.
- **Keccak and SHA-3** (`KeccakF`, `KeccakBits`, `KeccakLanes`, `Sponge`, `SpongePad`): the in-place permutation, unrolled four
  rounds at a time over lanes in permuted positions, and the buffered sponge, proved against FIPS 202, whose step mappings, round
  constants and state strings are stated bit by bit. `EventHash` puts the encoder and the
  sponge together as `Event.Hash` does.
- **The jigsaw graph** (`Jigsaw`, `JigsawOrder`, `JigsawArrival`, `Rounds`, `JigsawGraph`, `Search`, `Seeing`, `SeeingGrowth`,
  `SeeingColumn`):
  columns of events, parent links that may be filled in late, the lost-parent dictionary, the round queue, and the coloured
  search behind see and strong-see. `AddNode`, `AddEvent` and each turn of the round loop are atomic steps; the theorems are
  about every order of deliveries and every sequence of steps.
- **Small pieces that compose with these**: message frames on top of the encoder's reader (`Frames`), hex quantities
  (`HexUtil`), and the call-site cache of the log filter (`Glog`). `Basics` holds the wrapper types all of them use.

State that the program updates in place is a class whose methods reassign its fields (`EncBuf`, `EncReader`, `Stream`, `State`,
`JPGraph`, `RoundManager`, `Conn`, `Big`, `Uint64`, `GlogHandler`); each such method is proved against a function of the old
state or against the property itself, and the lemmas are about those functions.

How some things are represented:

- A vertex pointer is the pair of a column's address and the vertex's hash; the vertices behind the pointers are one map in
  `JPGraph`. The colours of the search live in a map of their own, keyed by vertex and colour cluster.
- Addresses and hashes are numbers that matter only up to equality; address 0 is the zero address. `AddEvent` receives the hash
  recomputed from the event's content as a parameter.
- A `*big.Int` round number can be shared by several vertices. A round trigger therefore takes the set of vertices that share
  the number, and renumbers all of them; the theorems hold for every such set.
- Channels are the sequences of what was sent on them. Networks, clocks and readers are byte sequences.
- `uint64` arithmetic of the stream, the words of the hex decoder and the 32-bit fields of frames and log levels are written with
  explicit wrap-around.

Where the code and the expectation one would have of it differ, the model follows the code and the exact condition is proved:

- `putInt32` shifts its second byte by 26 instead of 16: a word survives the frame head if and only if the two bytes agree
  (`Frames.Int32RoundTrip`); 65536 is the first that does not (`Frames.Payload65536Lost`).
- `Send` cuts the size of an encoding to 32 bits: the frame carries the whole encoding if and only if it is shorter than 2^32 bytes
  (`Frames.Conn.Send`; a string that is cut in `Frames.LargeStringCut`).
- `decodeByteArray` into a `[1]byte` leaves a decoded zero byte armed (`RlpMeaning.ByteArrayStaysArmed`,
  with an instance in `RlpMeaning.ZeroByteAgain`).
- Events with negative time stamps all hash the empty string, because `rlpHash` drops the encoder's error
  (`RlpEvent.PreimageInjective`; two such events in `RlpEvent.NegativeTimesCollide`).
- The outcome of deliveries is independent of their order if and only if each event names its parent's column exactly when the
  two are filed under one round (`JigsawOrder.OrderIndependence`; two events whose order matters in
  `JigsawOrder.WrongColumnMatters`).
- `xorInUnaligned` XORs whole blocks only for lengths its thresholds cover, which include every rate in use
  (`KeccakLanes.UnalignedAgrees`).
- In the stream, a parent's position moves only when a child list closes, so what is left of the outermost list is counted over
  all positions (`RlpStream.OuterPosAloneLags`).
- Cloning a squeezing sponge panics or resumes earlier in the output: it resumes where the original stands if and only if the rate
  is the largest one (`Sponge.CloneResumes`); SHAKE256 after one byte panics (`Sponge.Shake256Clone`).
- See is judged by column, and may hold although the target is not reached (`SeeingColumn.SeesByColumn`): the two are the same from
  every vertex if and only if every vertex of the target's column reaches the target (`SeeingColumn.SeeIsReachIff`).
- Log levels are cut to 32 unsigned bits before they are compared: the filter does what one expects if and only if the levels keep
  their order when cut, or a rule decides (`Glog.ForwardedIffAllowed`, by signs in `Glog.AllowedBySigns`); a verbosity of -1 lets
  everything through (`Glog.NegativeVerbosity`) and a record of level -1 is dropped (`Glog.NegativeRecord`).
- The two hex decoders differ on the empty string and on more than 16 digits, and only there (`HexUtil.DecodersAgree`).

## Model

| member | source | states |
|---|---|---|
| RlpSpec.BeRoundTrip | rlp/encode.go:585-640 | big-endian bytes denote the number they were made from and start with a non-zero byte |
| RlpSpec.BeCanonical | rlp/decode.go:964-988 | bytes without a leading zero are the one shortest form of their value |
| RlpSpec.EncString | rlp/encode.go:201-209 | a byte below 128 is its own encoding; a string shorter than 56 follows the byte 128 plus its length; a longer one follows 183 plus the length of its length, and that length |
| RlpSpec.EncList | rlp/encode.go:211-224 | the encodings of the elements, one after the other, follow 192 plus their joint length if that is below 56, else 247 plus the length of that length, and that length |
| RlpSpec.HeadFromTag | rlp/decode.go:902-962 | a tag byte with minimal length bytes is a header, of the kind and size the tag says |
| RlpSpec.HeadUnique | rlp/decode.go:902-962 | at most one header begins any byte string, so kind and size ahead are determined |
| RlpSpec.EncPrefixFree | rlp/decode.go:136-146 | no encoding is a proper prefix of another item's: two encodings that begin one string are of the same item |
| RlpSpec.EncAllPrefix | rlp/decode.go:338-365 | if a concatenation of encodings begins another, the items are a prefix and the rest encodes the others |
| RlpSpec.EncInjective | rlp/encode.go:80-93 | distinct items never share an encoding |
| RlpTypes.ToItemInjective | rlp/encode.go:345-379 | two values of one type with the same item are equal |
| RlpTypes.TypedIsWritable | rlp/encode.go:429-438 | every value of a decodable type can be written (no negative big integer) |
| RlpEncode.IntSize | rlp/encode.go:643-649 | the loop yields the length of the shortest big-endian form, 1 for zero |
| RlpEncode.PutInt | rlp/encode.go:585-640 | stores the shortest big-endian form and nothing else |
| RlpEncode.HeadSizeOf | rlp/encode.go:141-146 | is the length of the string header and of the list header |
| RlpEncode.PutHead | rlp/encode.go:150-158 | stores exactly the header for the tags and size, and nothing else |
| RlpEncode.FlatSize | rlp/encode.go:226-228 | flat data plus all list headers is exactly the length of the encoding |
| RlpEncode.SpliceItem | rlp/encode.go:211-246 | an item's deferred headers spliced into its flat data, at any place in a buffer, give its encoding: every size got by subtraction is the true payload length, nested headers included |
| RlpEncode.SpliceWhole | rlp/encode.go:230-246 | the same for the whole buffer, whose headers are in order and within bounds |
| RlpEncode.EncBuf.EncodeString | rlp/encode.go:201-209 | appends the encoding of the string, single bytes without a header |
| RlpEncode.EncBuf.ListEnd | rlp/encode.go:217-224 | the header's size becomes what was written since it was opened, headers included, and its own length is accounted for |
| RlpEncode.EncBuf.WriteUint | rlp/encode.go:390-404 | appends the encoding of the number's shortest big-endian form |
| RlpEncode.EncBuf.WriteBigInt | rlp/encode.go:429-438 | appends the same for big integers; a negative one is refused and nothing is appended |
| RlpEncode.EncBuf.WriteValue | rlp/encode.go:345-379 | appends exactly the flat data and headers of the value's item, and fails exactly on values with a negative big integer |
| RlpEncode.EncBuf.WriteList | rlp/encode.go:507-543 | the same for slices and structs, whose listEnd may be deferred |
| RlpEncode.EncBuf.ToBytes | rlp/encode.go:230-246 | fills a buffer of size() bytes exactly with the spliced encoding |
| RlpEncode.EncBuf.ToWriter | rlp/encode.go:248-270 | writes the same bytes piece by piece, up to the first write that fails |
| RlpReader.EncodeToBytes | rlp/encode.go:97-105 | returns the encoding of the value's item, or the error for a negative big integer |
| RlpReader.Encode | rlp/encode.go:80-93 | the writer receives the encoding, as far as it has room |
| RlpReader.EncodeWrites | rlp/encode.go:80-93 | the writes a writer receives one after the other join to the encoding |
| RlpReader.EncReader.Next | rlp/encode.go:306-337 | the next piece followed by the rest is what was pending; no piece exactly when nothing is |
| RlpReader.EncReader.Read | rlp/encode.go:281-302 | fills the buffer as far as the pending bytes go, leaves the rest pending, and reports EOF exactly when nothing is left |
| RlpReader.EncodeToReader | rlp/encode.go:112-119 | the reader holds the whole encoding, and size is its exact length |
| RlpReader.ChunksConcat | rlp/encode.go:281-302 | for any sizes of reads, the chunks concatenate to the first so many bytes, all of them once there is room |
| RlpReader.EncodeInChunks | rlp/encode.go:281-337 | any sequence of reads yields the encoding cut up, and EOF exactly when the sizes add up to it |
| RlpStream.WillReadForm | rlp/decode.go:1016-1034 | lets through exactly what the innermost list, or at top level the budget, allows, and changes only the kind otherwise |
| RlpStream.ReadFullForm | rlp/decode.go:990-1003 | yields the next n bytes exactly if limits and input allow, else the matching error |
| RlpStream.ReadUintForm | rlp/decode.go:964-988 | accepts exactly sizes without a leading zero, with their value |
| RlpStream.ReadKindForm | rlp/decode.go:902-962 | accepts exactly a canonical header that lies within the limits |
| RlpStream.NextKindForm | rlp/decode.go:869-900 | an armed kind is returned unchanged; otherwise the header ahead, or EOL exactly at the end of a list; never the budget error inside a list |
| RlpStream.NextKindComplete | rlp/decode.go:869-900 | a canonical header whose value lies within the limits is always recognised |
| RlpStream.StepInv | rlp/decode.go:757-788 | each of Kind, Bytes, Raw, uint, List and ListEnd keeps the invariant, and inside a list never fails on the budget |
| RlpStream.RunSafety | rlp/decode.go:1016-1034 | over every sequence of calls: positions never pass sizes, parent position plus child size stays within the parent, the unread part of the outermost list stays within the budget, the budget check never fires inside a list, and what the innermost list and the budget have left is computed without wrapping |
| RlpPlain.StepIsPlain | rlp/decode.go:648-1034 | on a stream within its invariant, each operation gives the state, the value and the error of the same operation with unbounded arithmetic |
| RlpPlain.RunIsPlain | rlp/decode.go:757-1034 | over every sequence of calls the uint64 stream is the one with unbounded arithmetic, so no subtraction or addition wraps, ListEnd included |
| RlpStream.OuterPosAloneLags | rlp/decode.go:773-788 | a concrete stream in which the outermost list's own position alone would claim more than the budget |
| RlpStream.RunConserves | rlp/decode.go:824-856 | over every sequence of calls, the budget of a stream over a byte slice equals its unread length |
| RlpMeaning.BytesSound | rlp/decode.go:648-669 | a string returned was encoded in front and exactly its encoding was consumed |
| RlpMeaning.BytesComplete | rlp/decode.go:648-669 | every encoded string within the limits is returned |
| RlpMeaning.UintSound | rlp/decode.go:703-734 | a number returned fits its bits and exactly its encoding was consumed |
| RlpMeaning.UintComplete | rlp/decode.go:703-734 | every encoded number that fits is returned |
| RlpMeaning.ByteArraySound | rlp/decode.go:395-430 | an array returned, of any length, is what was encoded ahead, and exactly that was consumed unless it is a zero byte |
| RlpMeaning.ByteArrayComplete | rlp/decode.go:395-430 | every encoded array, of any length, is returned |
| RlpMeaning.ByteArrayStaysArmed | rlp/decode.go:402-410 | the stream stays armed after success if and only if a zero byte was decoded into a length-1 array, and then decodes it again without end |
| RlpMeaning.ZeroByteAgain | rlp/decode.go:402-410 | a concrete list of one zero byte that yields any number of length-1 arrays and can then be closed |
| RlpMeaning.ListStartSound | rlp/decode.go:757-769 | entering a list consumes its canonical header and leaves its size to be read |
| RlpMeaning.ListStartComplete | rlp/decode.go:757-769 | every list within the limits can be entered |
| RlpMeaning.ListEndSound | rlp/decode.go:773-788 | reading the payload and closing the list consumes the list as one value of its parent |
| RlpMeaning.DecodedIsPrefix | rlp/decode.go:338-365 | elements decoded so far are a prefix of any list that fills the payload, and the end is reached exactly when all are |
| RlpDecode.Stream.Kind | rlp/decode.go:869-900 | takes the step NextKind in place |
| RlpDecode.Stream.Bytes | rlp/decode.go:648-669 | takes the step BytesStep in place |
| RlpDecode.Stream.Raw | rlp/decode.go:672-694 | takes the step RawStep in place |
| RlpDecode.Stream.Uint | rlp/decode.go:703-734 | takes the step UintStep in place |
| RlpDecode.Stream.ListEnd | rlp/decode.go:773-788 | takes the step ListEnd in place |
| RlpDecode.Stream.ReadFull | rlp/decode.go:990-1003 | the read loop takes the step ReadFull in place |
| RlpDecode.Stream.ByteArray | rlp/decode.go:395-430 | takes the step ByteArrayStep in place |
| RlpDecode.DecodeValue | rlp/decode.go:195-228 | for every type: a value returned has the type and exactly its encoding was consumed; an error means no value of the type is encoded ahead; EOL exactly at the end of a list |
| RlpDecode.DecodeInterface | rlp/decode.go:511-533 | the same for generic items, strings or nested lists |
| RlpDecode.DecodeListSlice | rlp/decode.go:323-336 | the same for slices |
| RlpDecode.DecodeSliceElems | rlp/decode.go:338-365 | elements until the end of the list: they fill it exactly, or no list of elements does |
| RlpDecode.DecodeStruct | rlp/decode.go:432-452 | the same for structs: too few or too many elements are errors |
| RlpDecode.DecodeBytes | rlp/decode.go:136-146 | succeeds exactly on the encoding of a value of the type, with that value |
| RlpRoundTrip.RoundTrip | rlp/decode.go:136-146 | decoding an encoded value of any supported type gives the value back |
| RlpRoundTrip.Reencode | rlp/decode.go:511-533 | generic decoding accepts exactly the encodings of items, and encoding the result gives the bytes back |
| RlpRaw.ListSize | rlp/raw.go:33-35 | is the length of the encoding of every list with that payload length |
| RlpRaw.ReadKindSound | rlp/raw.go:86-125 | an accepted header is canonical, and the value it announces lies within the buffer |
| RlpRaw.SplitComplete | rlp/raw.go:39-45 | the first value of any concatenation is split off with its kind, content and rest |
| RlpRaw.SplitStringExact | rlp/raw.go:49-58 | succeeds with content and rest if and only if the input is the content's encoding followed by the rest |
| RlpRaw.SplitListExact | rlp/raw.go:62-71 | succeeds with content and rest if and only if the input is the canonical list header of the content, the content and the rest |
| RlpRaw.ParsersAgree | rlp/raw.go:49-58 | SplitString and a fresh limited stream's Bytes accept the same inputs, with equal content and rest |
| RlpRaw.RawSound | rlp/decode.go:672-694 | Raw returns exactly the bytes it consumes |
| RlpRaw.RawComplete | rlp/decode.go:672-694 | Raw yields every encoded value unchanged, without looking inside lists |
| RlpRaw.CountOfEncodings | rlp/raw.go:74-84 | any concatenation of n encodings counts as n |
| RlpRaw.CountValues | rlp/raw.go:74-84 | the loop counts the values split off one after the other |
| RlpEvent.EventRoundTrip | core/types.go:206-215 | an event decodes from its own encoding to an equal event, unless a big integer is negative, which is refused |
| RlpEvent.EventItem | core/types.go:206-215 | an event is the list of its eight fields in the order of their declaration, the signature as a list of one string, transactions as empty lists |
| RlpEvent.PreimageIs | core/types.go:231-239 | for time stamps from 0 on, what is hashed is the encoding of the list of time stamp, transactions, self-parent, signature and other parent, in this order |
| RlpEvent.HashWrites | core/types.go:231-247 | the writes that reach the hash join to the encoding of the five fields in that order, and there are none if the time stamp is negative |
| RlpEvent.PreimageInjective | core/types.go:231-247 | two events share a preimage if and only if their five hashed fields agree or both time stamps are negative |
| RlpEvent.NegativeTimesCollide | core/types.go:231-247 | two concrete events with different self-parents and time stamp -1 that share the empty preimage |
| EventHash.Hash | core/types.go:231-247 | the encoder writing piece by piece into the sponge yields the 32-byte output, with rate 136 and domain byte 1, of the sponge on the encoded five fields |
| KeccakF.RoundConstants | crypto/sha3/keccakf.go:10-35 | the rc table is the output of the shift register of section 3.2.5 of FIPS 202 |
| KeccakF.RotationOffsets | crypto/sha3/keccakf.go:39-412 | the rotation amounts are the triangular numbers along the walk of section 3.2.2 of FIPS 202 |
| KeccakF.LayoutStep | crypto/sha3/keccakf.go:39-412 | each unrolled round relabels the lanes once more by (x, y) to (x, x + 2y), and four relabellings are the identity |
| KeccakF.PositionsAreLayout | crypto/sha3/keccakf.go:39-412 | the array positions each unrolled round reads and writes are that relabelling |
| KeccakF.ParityOfView | crypto/sha3/keccakf.go:49-53 | column parities do not depend on the relabelling |
| KeccakF.Block | crypto/sha3/keccakf.go:60-73 | five lanes read, rotated, combined and overwritten in place become the reference round's lanes at their new places, and no lane still needed is lost |
| KeccakF.Round | crypto/sha3/keccakf.go:48-137 | one unrolled round is iota after chi after pi after rho after theta, seen through the relabelling |
| KeccakF.KeccakF1600 | crypto/sha3/keccakf.go:39-412 | for every state, the in-place permutation equals 24 reference rounds of section 3.3 of FIPS 202 |
| KeccakBits.RotBit | crypto/sha3/keccakf.go:54-71 | for every rotation amount n in the code, bit z of the rotated lane is bit z - n of the lane, positions counted modulo 64 |
| KeccakBits.ThetaBits | crypto/sha3/keccakf.go:49-60 | bit (x, y, z) after theta is the bit before, XOR the parities of the columns (x - 1, z) and (x + 1, z - 1), as in section 3.2.1 of FIPS 202 |
| KeccakBits.RhoBits | crypto/sha3/keccakf.go:61-68 | bit z of the lane reached after t steps of the walk is bit z - (t + 1)(t + 2)/2 before rho, and lane (0, 0) stays, as in section 3.2.2 of FIPS 202 |
| KeccakBits.RhoPath | crypto/sha3/keccakf.go:61-68 | the walk starts at (1, 0) and goes from (x, y) to (y, 2x + 3y), as in section 3.2.2 of FIPS 202 |
| KeccakBits.PiBits | crypto/sha3/keccakf.go:60-73 | bit (x, y, z) after pi is bit (x + 3y, x, z) before, as in section 3.2.3 of FIPS 202 |
| KeccakBits.ChiBits | crypto/sha3/keccakf.go:69-73 | bit (x, y, z) after chi is the bit before, XOR the complement of its neighbour at x + 1 and the one at x + 2, as in section 3.2.4 of FIPS 202 |
| KeccakBits.IotaBits | crypto/sha3/keccakf.go:69 | iota flips the bits of lane (0, 0) that the round constant has, and no others |
| KeccakBits.RoundConstantBits | crypto/sha3/keccakf.go:10-35 | bit 2^j - 1 of round constant i is the output j + 7i of the shift register, and all other bits are 0 |
| KeccakBits.RegisterStep | crypto/sha3/keccakf.go:10-35 | the register starts as 1 and takes the steps of algorithm 5 of FIPS 202 |
| KeccakBits.RoundsAre | crypto/sha3/keccakf.go:39-412 | the permutation is 24 rounds, each of them theta, rho, pi, chi and iota in this order with the next constant |
| KeccakLanes.XorBlockBytes | crypto/sha3/xor_generic.go:12-20 | lane-wise XOR of a block is byte-wise XOR of the block extended by zeros |
| KeccakLanes.XorInGeneric | crypto/sha3/xor_generic.go:12-20 | the loop XORs every whole lane of the buffer into the state |
| KeccakLanes.XorInUnaligned | crypto/sha3/xor_unaligned.go:12-46 | XORs in the lanes its length thresholds cover |
| KeccakLanes.UnalignedAgrees | crypto/sha3/xor_unaligned.go:12-46 | the fast form agrees with the loop on all contents if and only if its thresholds cover the length, as they do for every rate in use |
| KeccakLanes.CopyOutGeneric | crypto/sha3/xor_generic.go:23-28 | copies whole lanes of the state's bytes |
| KeccakLanes.CopyOutUnaligned | crypto/sha3/xor_unaligned.go:48-51 | copies the state's first bytes |
| Sponge.AbsorbConcat | crypto/sha3/sha3.go:125-157 | absorbing two pieces is absorbing the second after the first one's unfinished block |
| Sponge.AbsorbBlock | crypto/sha3/sha3.go:79-87 | absorbing one block more XORs it into the first rate bytes of the state, leaves the others, and permutes, as in step 6 of algorithm 8 of FIPS 202 |
| Sponge.SqueezePosition | crypto/sha3/sha3.go:160-181 | whole blocks of output and a part of the next are a prefix of the one output stream |
| Sponge.SpongeByte | crypto/sha3/sha3.go:160-181 | byte r of output block q is byte r of the state that absorbing the padded message from all zeros leaves, permuted q times more |
| Sponge.State.Reset | crypto/sha3/sha3.go:57-64 | back to an absorbing state that has seen nothing |
| Sponge.State.Write | crypto/sha3/sha3.go:125-157 | for every way of cutting the message, the state has absorbed all whole blocks and fewer than rate bytes are buffered |
| Sponge.State.PadAndPermute | crypto/sha3/sha3.go:98-121 | the padded last block is absorbed and the window shows the first output block |
| Sponge.State.Read | crypto/sha3/sha3.go:160-181 | the bytes handed out so far are a prefix of the squeeze stream of section 4 of FIPS 202, however reads are sized |
| Sponge.State.Clone | crypto/sha3/sha3.go:66-75 | a copy that shares nothing and has seen the same message; of a squeezing state it stands MAX_RATE - rate bytes earlier in the output, and there is none exactly when the window starts before that |
| Sponge.State.Sum | crypto/sha3/sha3.go:185-192 | appends the sponge output on the padded message, or of a squeezing state what its clone reads next, and leaves the state as it was; none exactly when there is no clone |
| Sponge.CloneResumes | crypto/sha3/sha3.go:66-75 | by the bytes read so far: cloning while squeezing panics exactly if those of the current block are fewer than 168 - rate, and otherwise resumes where the original stands if and only if the rate is 168 |
| Sponge.Shake256Clone | crypto/sha3/shake.go:34-46 | SHAKE256 on any message, after one byte of output, has no clone |
| Sponge.RunningSums | crypto/sha3/sha3.go:125-192 | sums taken between writes are each the digest of all written so far |
| Sponge.ReadPieces | crypto/sha3/sha3.go:160-181 | any partition of the output across reads yields the same stream |
| SpongePad.PaddingIsStandard | crypto/sha3/sha3.go:98-121 | the padding bytes are the domain suffix and pad10*1 of section 5.1 of FIPS 202, bit for bit, also when both share the last byte |
| SpongePad.StateString | crypto/sha3/xor_generic.go:12-28 | the bytes of a state, least significant bit first, are its string of section 3.1.2 of FIPS 202: bit 64(5y + x) + z is bit z of lane (x, y) |
| Jigsaw.Resolve | core/jigsaw.go:217-224 | the first round with the event's number, or the oldest round when none has it |
| Jigsaw.Comers | core/round.go:410-423 | the list is unchanged exactly if it names the hash already, else longer by the request, and never names a hash twice |
| Jigsaw.NewGraphWf | core/jigsaw.go:108-133 | a new graph is well formed, has the coinbase and broadness it was given, the one column of the coinbase, and one empty round 0 |
| Jigsaw.AddNodeWf | core/jigsaw.go:271-294 | a new column gets the next number, columns stay numbered bijectively from 0, superMajority is two thirds of their number, and a known column changes nothing |
| Jigsaw.InsertVerts | core/jigsaw.go:192-257 | a new event adds one vertex, and changes of the others exactly the other parent of those that waited for it |
| Jigsaw.InsertWf | core/jigsaw.go:192-257 | a new event keeps the graph well formed: parents exist and have the hash named, slots hold vertices of their column, a vertex waits at most once and only without a parent |
| Jigsaw.AddEventWf | core/jigsaw.go:151-268 | every delivery keeps the graph well formed and never unlinks, renumbers or empties anything |
| Jigsaw.FirstDelivery | core/jigsaw.go:162-268 | a new event is a witness if sent as one or first in its column, sits on its column's last vertex, is linked to its other parent exactly if that is in the column named for it, has the parent asked for otherwise, and is announced if own and normal |
| Jigsaw.Redelivered | core/jigsaw.go:179-190 | a second delivery changes nothing, except that a witness is marked and triggers a round |
| JigsawOrder.ParentNext | core/jigsaw.go:200-209 | a newcomer finds its parent exactly if it names the parent's column |
| JigsawOrder.EarlierNext | core/jigsaw.go:240-247 | a vertex is linked to a later parent exactly if it waits for it in the parent's own round |
| JigsawOrder.DeliverInv | core/jigsaw.go:151-268 | after any order of distinct events: who is whose parent, by their positions in the order, and who waits where, once, exactly as long as it has no parent |
| JigsawOrder.DeliverLinks | core/jigsaw.go:199-257 | after any order of distinct events, one is another's other parent exactly if it has the hash named and came before it in the column named, or after it and under the same round |
| JigsawOrder.WaitingIff | core/jigsaw.go:240-257 | the lost dictionary of a round lists exactly the vertices filed there that have no parent, under the parent's hash |
| JigsawOrder.OrderIndependence | core/jigsaw.go:162-257 | all orders of distinct events end with the same parents and the same waiting vertices if and only if each names its parent's column exactly when the two are filed under one round |
| JigsawOrder.OneRound | core/jigsaw.go:162-257 | for events of one round that name their parents' columns: every order ends the same, each is linked to its parent if present, and exactly those with an absent parent wait |
| JigsawOrder.WrongColumnMatters | core/jigsaw.go:162-257 | two concrete events on a new graph, the child naming a wrong column, linked in one order and not in the other |
| JigsawArrival.NewGraphUntouched | core/jigsaw.go:108-133 | a new graph is a start the delivery theorems apply to |
| JigsawArrival.DeliverRead | core/jigsaw.go:151-268 | after any history: self-parents lead through each column latest first, exactly the missing parents were asked for, witnesses are those sent as such or opening a column, each slot holds the latest witness of its column in its round, newcomers and own events are listed in order |
| Rounds.Position | core/round.go:104-110 | the first round with the vertex's number, or none |
| Rounds.TriggerSeats | core/round.go:94-114 | a WitnessLocal of the current round or a Witness of the next opens the next round and sits alone in it, any other vertex sits in its own round's slot if there is one, no other slot changes, and only the opening vertex and those sharing its number are renumbered |
| Rounds.LocalWitnessOpens | core/round.go:94-114 | over two steps: a vertex of the current round that is marked as local witness opens the next round on its trigger, moves into it and sits there alone, and no older round changes |
| Rounds.WitnessOpens | core/round.go:94-114 | a Witness of the round after the current one opens it and sits there alone |
| Rounds.LatecomerSeated | core/round.go:104-114 | a Witness of any other round, or a WitnessLocal of a round not current, opens nothing and takes its column's slot in its own round, and changes nothing if the queue has no such round |
| Rounds.TriggerFires | core/round.go:112-126 | consensus is announced exactly when the triggered vertex's round exists and its first broadness slots are all filled |
| Rounds.ApplyInv | core/round.go:83-195 | every step, including local witness marks, which are sent to the round loop, and round triggers of sent vertices, keeps the run invariant and only grows the graph |
| Rounds.InsertMarked | core/jigsaw.go:226-233 | a new event fills a slot only with itself and only as a witness |
| Rounds.DeliverMarked | core/jigsaw.go:151-268 | every delivery keeps it so that only witnesses are seated or sent |
| Rounds.RunSafe | core/round.go:83-148 | in every run, every graph keeps the invariant and grows from every earlier one |
| Rounds.RunTheorem | core/round.go:83-126 | in every run with at most 128 columns: rounds are numbered currentIdx down to 0 from the front, slot i holds only witnesses of column i and is never emptied, only witnesses are sent to the round loop, and a round is announced only if broadness different columns have each supplied a witness |
| Rounds.SuppliersDistinct | core/round.go:117-126 | full slots come from as many different columns |
| JigsawGraph.JPGraph.AddNode | core/jigsaw.go:271-294 | takes the step AddNodeStep in place and returns the column |
| JigsawGraph.JPGraph.FindRound | core/jigsaw.go:217-224 | the loop over the queue ends on the round Resolve names |
| JigsawGraph.JPGraph.LinkWaiting | core/jigsaw.go:242-245 | the loop links exactly the listed vertices |
| JigsawGraph.JPGraph.AddComer | core/round.go:410-423 | appends the request unless its hash is listed |
| JigsawGraph.JPGraph.AddEvent | core/jigsaw.go:151-268 | takes the step AddEventStep in place; an event with a wrong hash is refused and changes nothing |
| JigsawGraph.JPGraph.MarkLocal | core/round.go:184-190 | the event is sent out, the vertex becomes a WitnessLocal and is sent to the round loop, and nothing else changes |
| JigsawGraph.JPGraph.SeatWitness | core/round.go:112-126 | fills the slot and announces the round exactly if the loop finds all its slots filled |
| JigsawGraph.JPGraph.RoundTurn | core/round.go:83-126 | takes the step TriggerStep in place |
| Search.VisitReaches | core/round.go:384-408 | colouring a vertex and visiting its white links one after the other reaches exactly what is reachable from it by white paths that do not pass the target or a witness |
| Search.ReachStops | core/round.go:392-395 | the target and a vertex marked Witness reach only themselves |
| Search.ReachPasses | core/round.go:397-406 | any other vertex reached, a WitnessLocal included, lets the search through to each of its self-parent and other parent that is white |
| Search.ReachLeast | core/round.go:384-408 | nothing else is reached: every set that holds the start and is closed under those links holds all that is reached |
| Seeing.RoundManager.DfsVisit | core/round.go:384-408 | terminates on any link graph, marks exactly the columns of the vertices so reachable, and blackens exactly those it did not stop at |
| Seeing.RoundManager.JudgeSee | core/round.go:351-375 | sees if and only if a vertex of the target's column is reached; strongly if and only if the vertices reached are of at least superMajority columns; blackens exactly the vertices reached that are neither the target nor a Witness; neither when a vertex is nil |
| SeeingColumn.SeeIsReachIff | core/round.go:351-408 | with colours clear, seeing a target is the same as reaching it, from every vertex, if and only if every vertex of the target's own column reaches it |
| SeeingColumn.SeesByColumn | core/round.go:351-375 | after four concrete deliveries to a new graph, an event sees another that it does not reach |
| SeeingGrowth.Searchable | core/round.go:351-375 | every well-formed graph meets what the search needs |
| SeeingGrowth.SeeingKept | core/jigsaw.go:200-257 | with colours clear, a new event never ends a see, and ends a strong-see only if it brings a new column |
| SeeingGrowth.MajoritiesOverlap | core/round.go:173-184 | two witness sets above superMajority share more than a third of the columns |
| Frames.Int32RoundTrip | p2p/server.go:117-126 | reading undoes writing if and only if the bits from 26 and the bits from 16 agree |
| Frames.Int32Meaning | p2p/server.go:117-126 | what is read is the big-endian value of the four bytes; what is written has the number as its value once its second byte, the bits from 26, is replaced by the bits from 16 |
| Frames.WireParts | p2p/server.go:94-115 | a frame is the code, four bytes of type, four of size and the payload, in this order |
| Frames.Word65536Lost | p2p/server.go:117-126 | 65536 is read back as 0 |
| Frames.FrameBack | p2p/server.go:65-115 | a frame followed by anything is read back as it was if and only if its type and size survive |
| Frames.FramesBack | p2p/server.go:65-115 | messages written back to back are read back as the same messages if and only if all types and sizes survive |
| Frames.SmallFramesBack | p2p/server.go:65-126 | they are for all types and sizes below 2^16 |
| Frames.Payload65536Lost | p2p/server.go:65-126 | a payload of 65536 bytes is read back as empty and its bytes as the next frame |
| Frames.PutInt32 | p2p/server.go:121-126 | stores the four bytes and nothing else |
| Frames.Conn.WriteMsg | p2p/server.go:94-115 | for every size: writes one whole frame, or nothing if not connected, if the 32-bit length of the frame wraps, or if one read of the payload falls short |
| Frames.Conn.ReadMsg | p2p/server.go:65-92 | returns and consumes one frame, or the reason there is none |
| Frames.Conn.Send | p2p/message.go:89-99 | writes one frame whose payload is the encoding cut to its length modulo 2^32; the whole encoding if and only if it is shorter than 2^32 |
| Frames.LargeStringCut | p2p/message.go:89-99 | of a string of 2^32 bytes only the six header bytes are sent |
| Frames.Decode | p2p/message.go:69-75 | a payload that is the encoding of a value of the type decodes to it |
| Frames.Exchange | p2p/message.go:69-99 | what one peer sends the other reads and decodes to the same value, code and type |
| HexUtil.HexConcat | core/hexutil/hexutil.go:148-162 | the value of joined digits is the value of the front, shifted by the digits behind, plus theirs |
| HexUtil.NibbleDigits | core/hexutil/hexutil.go:210-221 | the sixteen digits have their values, in upper and in lower case |
| HexUtil.NibbleOthers | core/hexutil/hexutil.go:210-221 | exactly these characters are digits |
| HexUtil.DigitsValue | core/hexutil/hexutil.go:153-160 | one digit is worth its value, and a digit more behind a number shifts it by 16 |
| HexUtil.QuantityOk | core/hexutil/hexutil.go:138-206 | the text 0x or 0X and digits is accepted, with their value, exactly if there is a digit, not too many, and no leading zero |
| HexUtil.CheckNumber | core/hexutil/hexutil.go:191-206 | accepts exactly prefixed digits without a leading zero, returns them without the prefix, and otherwise says which of the four errors applies |
| HexUtil.DecodeLimb | core/hexutil/hexutil.go:153-160 | a limb is the value of its digits and no word operation wraps |
| HexUtil.DecodeLimbs | core/hexutil/hexutil.go:146-163 | for any word size, the limbs denote the positional value, each below the word size, or some digit is bad |
| HexUtil.DecodeBig | core/hexutil/hexutil.go:138-165 | for either word size, the value of the digits or the error the input calls for |
| HexUtil.Big.UnmarshalText | core/hexutil/json.go:149-178 | the same with the empty text as 0; the receiver changes only on success |
| HexUtil.Uint64.UnmarshalText | core/hexutil/json.go:211-230 | the value of at most 16 digits, without wrap-around, or the error; the receiver changes only on success |
| HexUtil.DecodersAgree | core/hexutil/json.go:211-230 | DecodeBig and Uint64 agree, error for error, if and only if the input is non-empty and fails the shared checks or has at most 16 digits |
| HexUtil.CanonicalUnique | core/hexutil/hexutil.go:191-206 | accepted digit strings with one value have the same digits up to case |
| HexUtil.EncodeDecode | core/hexutil/hexutil.go:179-185 | every number below 2^256 decodes from its own encoding |
| Glog.LookupFirst | log/handler_glog.go:211-221 | the look-up is the first matching rule's level, or 0 |
| Glog.LookupKept | log/handler_glog.go:90-129 | looking a site up in the rules kept finds the first part of the rule set with a positive level that matches |
| Glog.KeptFirst | log/handler_glog.go:90-129 | if part i of a rule set is a rule with a positive level that matches the site and no earlier part is, the look-up gives its level; if none is, 0 |
| Glog.RunInv | log/handler_glog.go:130-138 | over every sequence of calls, with any levels and rules, the cache exists when there are rules and each entry equals the uncached look-up |
| Glog.ForwardedIff | log/handler_glog.go:196-226 | after every sequence of calls, a record of any level is forwarded if and only if its level is at most the level last set, both cut to 32 bits, or rules are active and the uncached look-up allows it |
| Glog.ForwardedIffAllowed | log/handler_glog.go:196-226 | for all levels: a record is forwarded exactly when its level is at most the larger of the global level and the uncached look-up, if and only if it is unaffected by the cut to 32 bits |
| Glog.AllowedBySigns | log/handler_glog.go:196-226 | for 32-bit signed levels, that condition in terms of the signs of the two levels and whether there are rules |
| Glog.NegativeVerbosity | log/handler_glog.go:69-71 | after Verbosity(-1) every record is forwarded, also one of level 5, which no level allows |
| Glog.NegativeRecord | log/handler_glog.go:196-202 | a new handler drops a record of level -1 though every level allows it |
| Glog.GlogHandler.Vmodule | log/handler_glog.go:88-139 | refuses exactly the rule sets with a malformed part, which change nothing; otherwise keeps the rules with a positive level and clears the cache |
| Glog.GlogHandler.Classify | log/handler_glog.go:208-221 | the loop finds the first matching rule's level or 0 and remembers it in a cache that exists |
| Glog.GlogHandler.Log | log/handler_glog.go:176-227 | forwards exactly what the uncached filter does, for every level, and keeps the cache right |

## Left out

- RlpDecode.DecodeValue: types without length-1 byte arrays, because a list of them does not end at a zero byte (RlpMeaning.ZeroByteAgain).
- RlpDecode.DecodeBytes: the same types, for the same reason.
- Seeing.RoundManager.JudgeSee: column numbers below broadness, because the trace has that many entries.
- JigsawGraph.JPGraph.AddEvent: at most 128 columns, because the witness slots are that many.
- Reflection and the type cache of rlp: types are an explicit schema of unsigned integers, big integers, byte strings, byte arrays, slices, structs and generic items.
- Booleans, raw values, tail and nil tags, pointers and custom encoders of rlp: they would add easy cases.
- Allocation limits and encodings of 2^64 bytes or more.
- Read errors other than the end of the input in readFull.
- The pool of encoder buffers: each use starts from a reset buffer.
- The assembly permutation: the Go permutation is the one modelled.
- Goroutines, locks and blocking channels: each operation is one atomic step.
- clearColorDFS: the search is stated relative to whatever is white when it starts.
- The loop of MonitorLoop and the votes of WitnessFame: only the threshold, the mark and the send are modelled; the mark may fall on any vertex.
- The order and the consumption of channels: a vertex sent to the round loop may be taken at any later time and more than once.
- ComposeEvent, RandParent, ConsensusShow and RetrieveEvent: clock, randomness and logging.
- Parsing of rule strings and regular expressions in the log filter: rules arrive parsed, and a rule matches by call site.
- Back-trace requests of the log filter.
- strconv.ParseUint behind DecodeUint64, and the byte decoders of hexutil.
- Dialling, handshakes, peer tables and timers.
