# Verified models of the OpenStack console and block storage utilities

A Dafny 4.11 project that models parts of noVNC and of Cinder and proves what they are for.

## What is modelled

**The DEFLATE/zlib decoder** of `noVNC/include/inflator.js`, from `inflateInit` on. `Rfc1951.dfy` is the
reference: the meaning of a zlib stream as sections 3.2.2 to 3.2.7 of RFC 1951 and section 2.2 of RFC 1950 give
it, as functions from a position in the stream to the outcome of the whole stream, one function for each point at
which a decoder may be suspended. The program departs from the standard in two places, so the functions exist for
the rules of the standard, for those of the program, and for what both share; `Agreement.dfy` proves exactly how
the three are related. The program is modelled in its own form:

* `CodeLengths.dfy`, `TableSteps.dfy`, `TableWalk.dfy`, `InflateTable.dfy`, `Enough.dfy`, `FixedTables.dfy`:
  `inflate_table` over arrays, with what its tables must contain (`Huffman.dfy`, `CodeTables.dfy`).
* `Stream.dfy`: the stream object with its fields and arrays; `Reader` and `Writer` stand for the local
  variables of `inflate` between LOAD and RESTORE. `ReadCode.dfy` and `Coding.dfy`: decoding one symbol.
* `Step*.dfy`, `Matches.dfy`, `UpdateWindow.dfy`, `Dispatch.dfy`, `Inflate.dfy`: the modes, the circular window,
  the dispatch loop and the end of a call. `Fast*.dfy`, `InflateFast.dfy`: `inflate_fast`.
* `EntryOps.dfy`, `SymbolEnd.dfy`: what both paths make of a table entry, and where a symbol ends.
* `Run.dfy`: whole runs. A ghost constant of the object is the whole compressed stream, with what later calls
  will supply; the invariant `Open` says that the outcome from the current state on is that of the whole stream.

Every step keeps that outcome, so the main results (`Runs.InflateAll`, `Runs.InflateByStandard`) are that the run
ends and gives what the whole stream means, however input and output are cut up. `StreamPrefix.dfy`, `OutputGrows.dfy` and
`StoredStream.dfy` prove properties of the reference itself; `FixedStream.dfy` and `DynamicStream.dfy` follow two
concrete compressed streams through it bit by bit.

**Others**, each in one file: the checksum (`Adler.dfy`), the receive queue of `websock.js` (`ReceiveQueue.dfy`),
the merge queue and the key tracker of `keyboard.js` (`Keyboard.dfy`), the block cipher of `des.js` (`Des.dfy`),
the codec of `base64.js` (`Base64.dfy`), and the class walk of Cinder's `utils.py` (`ClassWalk.dfy`).

## Findings

* A dynamic block with 31 or 32 distance codes is refused (noVNC/include/inflator.js:1392), although section 3.2.7 of
  RFC 1951 allows up to 32. `Agreements.ProgramAndStandard` gives the exact relation to the standard: the program
  fails with the output that comes before the block; `Agreements.ManyDistsExample` is a concrete stream.
* A code length code without any symbol is accepted (noVNC/include/inflator.js:2129-2143 with 1425-1436): the
  CODELENS mode does not look at the invalid marker, so every bit reads as a length of zero, and the block is
  refused only when the list of lengths is full (`Agreements.EmptyCode`). Compared with refusing it at once only the
  status of a stream that is cut off there differs (`Agreements.NoLengthsExample`).
* Which incomplete codes are accepted, and that a block without an end-of-block code is refused, is the program's
  policy on what the standard leaves open; the reference has it under all rules.
* The comment at noVNC/include/inflator.js:494 says that fewer than eight bits are held when `inflate_fast` is
  entered. Up to fourteen may be, when the machine has waited in LEN with an incomplete code; what keeps the
  returned bytes within the call is that such bits contain no complete code (`FastSteps.FirstSymbol`).
* Once CHECK has compared the checksum, the output of that call is not put into the window
  (noVNC/include/inflator.js:1861-1871 resets the count); no match can follow, and the window invariant is
  stated for the modes before that.
* The limit test of the receive queue (noVNC/include/websock.js:363-367) subtracts the read position instead of
  adding it, and refuses some messages that would fit: `ReceiveQueues.RefusesTooMuch` says exactly which.
* The comment at noVNC/include/websock.js:357 asks for less than an eighth of the buffer; the code gives exactly
  an eighth.

## Model

| member | source | states |
|---|---|---|
| Runs.InflateAll | noVNC/include/inflator.js:873-1963 | Resumability, as total correctness: for every way of cutting the input into chunks and the output space into pieces, the run ends, and its output and status are those of the whole stream under the program's rules |
| Runs.InflateByStandard | noVNC/include/inflator.js:873-1963 | The same against RFC 1950/1951 itself: every run gives the output and status of the standard unless a block header is reached on which the program departs from it, and then exactly which ones it gives |
| Agreements.ProgramAndStandard | noVNC/include/inflator.js:1392-1396 | The exact relation of the program to RFC 1951: the same outcome unless a block has 31 or 32 distance codes (the program fails with the output so far) or a code length code has no symbols (both fail with the same output, the program possibly only once there is more input) |
| Agreements.DecodeAgrees | noVNC/include/inflator.js:873-1963 | The same for all three sets of rules at once, from the start of the stream |
| Agreements.TableAgrees | noVNC/include/inflator.js:1367-1401 | At the numbers of code lengths: the rules give the same with up to 30 distance codes, as far as the rest agrees, and the program fails with more |
| Agreements.ManyDistsExample | noVNC/include/inflator.js:1392-1396 | A concrete stream that the program refuses and that the standard has read on |
| Agreements.EmptyCode | noVNC/include/inflator.js:1441-1552 | A code length code without symbols: every bit reads as a zero, and the block is refused as soon as there are enough bits to fill the list, but not before |
| Agreements.NoLengthsExample | noVNC/include/inflator.js:1428-1436 | A concrete stream with such a code that is cut off: the program asks for more, the standard refuses it |
| Runs.HeldAtLen | noVNC/include/inflator.js:1595-1616 | Between calls, whenever LEN is next, fewer than eight bits are held or those held contain no complete code, and never more than fourteen are held |
| Runs.Call | noVNC/include/inflator.js:2348-2371 | One call through the stream's fields: input that was not taken is offered again, with a new buffer; the bytes returned are exactly those added to the output |
| Runs.WrapperInflate | noVNC/include/inflator.js:2389-2408 | The wrapper: its buffer is replaced only if more output is expected than it holds, and input is dropped only if the buffer is full or the run has ended |
| Runs.RunEnds | noVNC/include/inflator.js:1907-1912 | In a final mode, or waiting with all input taken, the whole stream means exactly what has been output, with that status (and, when done, with that number of bits used) |
| Runs.PrefixAlways | noVNC/include/inflator.js:873-1963 | Safety in every reachable state: what has been output is a prefix of what the whole stream decodes to |
| Runs.GoGrows | noVNC/include/inflator.js:925-1920 | For each of the modes, the outcome that is still possible begins with what has been output |
| Runs.InflateStored | noVNC/include/inflator.js:1317-1366 | Data put into stored blocks is recovered whatever the chunks and output pieces |
| StreamPrefixes.PrefixDecides | noVNC/include/inflator.js:873-1963 | Section 3.2.3 of RFC 1951: a truncated stream decodes to a prefix of the whole; a complete or wrong one keeps its outcome whatever follows |
| StoredStreams.StoredRoundTrip | noVNC/include/inflator.js:1317-1366 | Decoding inverts writing stored blocks, for data of any length, using up the whole stream |
| FixedStreams.FixedExample | noVNC/include/inflator.js:1592-1848 | A concrete zlib stream with the fixed codes, decoded bit by bit to its eighteen bytes: literals, a match with extra bits in length and distance, the end of the block, the checksum |
| DynamicStreams.DynamicExample | noVNC/include/inflator.js:1367-1591 | A concrete zlib stream with dynamic codes, decoded bit by bit to its three bytes: counts, the code length code in its order, repeats, both lists, the data, the checksum |
| OutputGrows.SymbolsGrow | noVNC/include/inflator.js:1592-1848 | Decoding symbols only ever appends to the output |
| Inflates.Inflate | noVNC/include/inflator.js:873-1963 | One call: keeps the stream outcome and all invariants, writes only into the free output, ends in a final mode, with all input taken (then a stream ending there is incomplete) or with no room left; exact return code |
| Inflates.Loop | noVNC/include/inflator.js:925-1920 | The dispatch loop terminates, since every step that does not leave reads, writes or goes down in rank, and it leaves only in a final mode, with no room, or waiting for input that a stream ending there lacks |
| Inflates.Step | noVNC/include/inflator.js:925-1920 | Every step of the machine keeps the outcome, the window, the counts and the output written so far |
| Inflates.StepMode | noVNC/include/inflator.js:1595-1614 | The fast path is taken with six bytes of input and 258 of room, and is a step like any other |
| Inflates.SaveWindow | noVNC/include/inflator.js:1940-1945 | After a call the window holds the latest output whenever a later match can refer to it |
| Inflates.SaveTotals | noVNC/include/inflator.js:1946-1962 | Total counts equal bytes read and written over all calls; the checksum covers all output; return codes 0, 1, 2, -3 and -5 |
| Inflates.ReturnCodes | noVNC/include/inflator.js:1959-1962 | The return codes as numbers: 1, 2 and -3 in the final modes, and otherwise -5 without progress or at a finish, or 0 |
| Streams.Stream.constructor | noVNC/include/inflator.js:671-766 | The state that inflateInit sets up: zlib framing, 15 window bits, no window yet |
| Runs.Init | noVNC/include/inflator.js:764-766 | A fresh stream meets the invariant, and its outcome is that of the bytes to come |
| Streams.NeedBits | noVNC/include/inflator.js:933-939 | NEEDBITS: pulls whole bytes until n bits are held, or fails with the input exhausted |
| Streams.Peek | noVNC/include/inflator.js:1268-1282 | NEEDBITS and BITS: the value is the n-bit field of the stream at the current position; failing at the end of the stream means the field is cut off |
| Streams.PullOK | noVNC/include/inflator.js:933-939 | PULLBYTE keeps the held bits equal to the bits of the stream |
| Streams.DropOK | noVNC/include/inflator.js:1279-1282 | DROPBITS keeps the held bits equal to the bits of the stream |
| StepBlocks.StepHead | noVNC/include/inflator.js:927-991 | Header of section 2.2 of RFC 1950: waits, refuses (check bits, method, window size) or goes on exactly as the standard says |
| StepBlocks.HeadCases | noVNC/include/inflator.js:958-983 | When the sixteen header bits are refused, and what they say otherwise |
| FixedStreams.HeaderOfBytes | noVNC/include/inflator.js:958-983 | The header in terms of its two bytes: refused unless 256 times the first plus the second is a multiple of 31, the method is 8 and the window size at most 15 bits; bit 5 of the second byte asks for a dictionary |
| StepBlocks.StepDictId | noVNC/include/inflator.js:1227-1256 | A preset dictionary ends the run with the request for it |
| StepBlocks.StepType | noVNC/include/inflator.js:1258-1316 | The three block header bits select stored, fixed, dynamic or invalid; the last block leads to the trailer at a byte boundary |
| StepBlocks.TypeRead | noVNC/include/inflator.js:1278-1316 | Each block type continues as section 3.2.3 of RFC 1951 says |
| StepBlocks.TakeBlockHeader | noVNC/include/inflator.js:1278-1314 | The three bits are the last-block flag and the type |
| StepBlocks.SwapIsBigEndian | noVNC/include/inflator.js:605-610 | ZSWAP32 of 32 held bits is the big-endian number at the current position |
| StepStoredBlocks.StepStored | noVNC/include/inflator.js:1317-1344 | Length and complement at a byte boundary; refused exactly when they disagree |
| StepStoredBlocks.StepCopy | noVNC/include/inflator.js:1348-1366 | Copies as much of a stored block as input and room allow, and keeps the outcome |
| StepStoredBlocks.CopyRun | noVNC/include/inflator.js:1349-1361 | Copying k bytes at once is copying them one by one |
| StepStoredBlocks.SkipOK | noVNC/include/inflator.js:1356-1359 | Bytes copied past the empty bit reader are those of the stream |
| StepTrailers.StepCheck | noVNC/include/inflator.js:1849-1906 | The trailer is accepted exactly when it is the Adler-32 of all output of all calls |
| StepTrailers.CheckUpdated | noVNC/include/inflator.js:1861-1868 | Continuing the checksum over this call gives the checksum of the whole output |
| StepTables.StepTable | noVNC/include/inflator.js:1367-1401 | Numbers of code lengths; more than 286 or 30 are refused |
| StepLenLensMode.StepLenLens | noVNC/include/inflator.js:1402-1440 | The code length code: lengths put in their permuted places, refused exactly when not acceptable, and otherwise a table that decodes the code |
| StepLenLensMode.ReadLenLens | noVNC/include/inflator.js:1403-1416 | Reading the lengths may stop anywhere and resume |
| StepLenLensMode.PlacedLens | noVNC/include/inflator.js:896-897 | Which of the given lengths each symbol of the code length code gets, in numbers: the first four belong to 16, 17, 18 and 0, the others to 8, 7, 9, 6 and so on outwards; what is not given is zero |
| StepLenLensMode.ClearLens | noVNC/include/inflator.js:1417-1419 | When the table is built, the array holds for each symbol the length given for it, by number, or zero |
| StepCodeLensMode.StepLength | noVNC/include/inflator.js:1442-1542 | One code length symbol: a length, a repeat, an error or waiting, as section 3.2.7 of RFC 1951 says, also when resumed in the middle of a repeat |
| StepCodeLensMode.StepRepeat | noVNC/include/inflator.js:1464-1541 | Repeat codes 16, 17 and 18: bits, counts and the two errors |
| StepCodeLensMode.RepeatGoes | noVNC/include/inflator.js:1465-1540 | A repeat fails exactly when there is nothing to repeat or the list overflows, and otherwise extends the list |
| StepCodeLensMode.RepeatCounts | noVNC/include/inflator.js:1464-1541 | 16 repeats 3 to 6 times by two bits, 17 repeats 3 to 10 times by three bits, 18 repeats 11 to 138 times by seven bits |
| StepCodeLensMode.LeftAfterLength | noVNC/include/inflator.js:1443-1463 | After a length fewer than eight bits are held, or a repeat is waiting for its bits |
| StepBuilds.StepCodeLens | noVNC/include/inflator.js:1441-1591 | The list of lengths becomes two tables exactly when there is an end-of-block code and both sets are acceptable |
| StepBuilds.BuildTables | noVNC/include/inflator.js:1547-1587 | The same for the calls of inflate_table; the space check never refuses |
| FixedTables.UseFixed | noVNC/include/inflator.js:783-815 | The fixed tables, built once, decode the fixed codes of section 3.2.6 |
| FixedTables.FixedLensAt | noVNC/include/inflator.js:792-802 | Section 3.2.6 of RFC 1951: 8 bits up to symbol 143, 9 up to 255, 7 up to 279 and 8 up to 287; 5 bits for every distance symbol |
| FixedTables.FixedCodes | noVNC/include/inflator.js:783-815 | The fixed codes themselves, as section 3.2.6 lists them: from 00110000, 110010000, 0000000 and 11000000 on |
| FixedTables.FixedLensFacts | noVNC/include/inflator.js:792-799 | The fixed literal/length code is complete with lengths up to 9 |
| ReadCodes.ReadCode | noVNC/include/inflator.js:1623-1666 | The lookup loop: an entry is accepted only if it is the symbol of the eventual stream; waiting means that the held bits contain no complete code; under eight bits remain |
| ReadCodes.ReadRoot | noVNC/include/inflator.js:1623-1636 | First level of the lookup |
| ReadCodes.ReadSub | noVNC/include/inflator.js:1637-1660 | Second level, through a link |
| ReadCodes.LessThanByte | noVNC/include/inflator.js:1623-1666 | Fewer than eight bits remain behind a symbol that was read byte by byte |
| EntryOps.LenSense | noVNC/include/inflator.js:1669-1687 | What the operation of a table entry makes of each literal/length symbol |
| EntryOps.DistSense | noVNC/include/inflator.js:1754-1763 | What it makes of each distance symbol |
| StepCodes.StepLen | noVNC/include/inflator.js:1616-1688 | Literal, end of block, length or error, as the code and section 3.2.5 say |
| StepCodes.StepLenExt | noVNC/include/inflator.js:1689-1710 | Extra bits of a length |
| StepCodes.StepDist | noVNC/include/inflator.js:1711-1764 | Distance symbol or error |
| StepCodes.StepDistExt | noVNC/include/inflator.js:1765-1792 | Extra bits of a distance; beyond the window size of the header is an error |
| StepCodes.StepLit | noVNC/include/inflator.js:1843-1848 | A literal is written, or waits for room |
| StepMatches.StepMatch | noVNC/include/inflator.js:1793-1842 | Part of a match is copied, from the window or the output; too far back exactly when the distance exceeds all output |
| StepMatches.Locate | noVNC/include/inflator.js:1795-1833 | The source of the next bytes and how many of them are contiguous |
| Matches.WindowFeeds | noVNC/include/inflator.js:1796-1824 | The window cells used are valid and hold the bytes `dist` back, wrapped or not |
| Matches.TooFar | noVNC/include/inflator.js:1798-1803 | A distance is beyond the window exactly when it is beyond all output |
| Matches.CopyRun | noVNC/include/inflator.js:1837-1840 | The byte loop, overlapping or not, writes the match of section 3.2.3 |
| Matches.CopyMatchAt | noVNC/include/inflator.js:1837-1840 | Each byte p of a match equals the byte p - dist |
| Matches.CopyMatchSplit | noVNC/include/inflator.js:1835-1841 | A match copied in parts is the match |
| UpdateWindows.UpdateWindow | noVNC/include/inflator.js:831-871 | Ring invariant: afterwards the window holds the last min(total, 32768) bytes of the history extended by this output |
| UpdateWindows.RingAppend | noVNC/include/inflator.js:849-868 | Less than a window of new bytes: the j-th most recent byte is at (wnext - j) mod wsize, and wnext = whave until the window is full |
| UpdateWindows.RingReplace | noVNC/include/inflator.js:844-848 | A window or more of new bytes |
| UpdateWindows.AroundTwo | noVNC/include/inflator.js:850-862 | The two copies together write once around the ring |
| InflateFasts.InflateFast | noVNC/include/inflator.js:224-508 | The fast path refines the slow one: for some n >= 1 it ends in the mode, with the output and (unless that is an error) at the position where n symbols end; it keeps the outcome of the stream, leaves fewer than eight bits, and gives back only bytes read in the same call |
| FastSteps.FastStep | noVNC/include/inflator.js:286-489 | One iteration decodes exactly one symbol, reads at most 6 bytes, writes at most 258, holds at most 30 bits and needs no test |
| FastSteps.FastIsSlow | noVNC/include/inflator.js:1595-1848 | One iteration of the fast path and the slow modes LEN to LIT over the same symbol end in the same mode, with the same output and, unless that is an error, at the same position |
| FastSteps.SameEndOn | noVNC/include/inflator.js:1595-1848 | Steps of the slow modes within a symbol compose, also when suspended in between |
| SymbolEnds.LenEnds | noVNC/include/inflator.js:1669-1687 | LEN leads to the end of the symbol that section 3.2.3 of RFC 1951 gives |
| SymbolEnds.DistEnds | noVNC/include/inflator.js:1754-1763 | DIST leads to the same end |
| SymbolEnds.MatchEnds | noVNC/include/inflator.js:1835-1841 | Copying a match in parts leads to the same end |
| InflateFasts.GiveBackOK | noVNC/include/inflator.js:494-499 | Returned bytes never go before the entry position, although up to fourteen bits may be held on entry |
| FastSteps.FastMatch | noVNC/include/inflator.js:305-474 | A length/distance pair in the fast path |
| FastSteps.FastDist | noVNC/include/inflator.js:322-469 | Distance and its extra bits in the fast path |
| FastSteps.RoomForOne | noVNC/include/inflator.js:287-291 | Before each pull at most five bytes of the six have been used |
| FastSteps.RoomForTwo | noVNC/include/inflator.js:323-328 | Before each pair of pulls at most four bytes have been used |
| FastSteps.LengthLimit | noVNC/include/inflator.js:307-319 | No match is longer than 258 |
| FastSteps.FirstSymbol | noVNC/include/inflator.js:494-495 | The first symbol uses up all bits held on entry but seven at most |
| FastCodes.FastCode | noVNC/include/inflator.js:293-299 | With fifteen bits held, one symbol through at most one link, without waiting |
| FastCodes.SubIndex | noVNC/include/inflator.js:474-478 | The sub-table index formed after dropping the root bits is the one formed before |
| FastCopies.FastCopy | noVNC/include/inflator.js:359-461 | The whole match, or too far exactly when the distance exceeds all output |
| FastCopies.CopySegments | noVNC/include/inflator.js:384-428 | Window segments in the three cases of the write position, then the output |
| FastCopies.CopyThrees | noVNC/include/inflator.js:429-460 | The unrolled copy of three bytes at a time |
| InflateTable.Build | noVNC/include/inflator.js:2052-2342 | Table correctness: -1 exactly for over-subscribed or disallowed incomplete sets; 1 exactly when acceptable and over the space limit; otherwise every 15-bit word resolves, within the entries that are accounted for, to the symbol and length of its canonical code or to the invalid marker. Nothing beyond those entries, or beyond the space limit, is written |
| InflateTable.SortAndFill | noVNC/include/inflator.js:2164-2336 | The same for an acceptable set of lengths, from sorting on |
| InflateTable.FrontierPrefix | noVNC/include/inflator.js:2292-2325 | At every moment decoding needs no entry beyond those allocated so far |
| InflateTable.FillTable | noVNC/include/inflator.js:2229-2336 | The loop over the sorted symbols fills every table entry that a word can reach |
| InflateTable.EnterCode | noVNC/include/inflator.js:2285-2290 | Entering one symbol and moving to the next |
| InflateTable.NextCode | noVNC/include/inflator.js:2273-2283 | The backwards increment gives the reversed next code |
| InflateTable.SubTableBits | noVNC/include/inflator.js:2302-2310 | The look-ahead finds the size of the sub-table |
| InflateTable.OpenSubTable | noVNC/include/inflator.js:2292-2325 | A new sub-table is accounted for, checked and linked |
| InflateTable.Replicate | noVNC/include/inflator.js:2264-2271 | An entry is stored at all indices with the code as low bits |
| InflateTable.BasisIsSense | noVNC/include/inflator.js:2030-2050 | The base and extra tables are those of section 3.2.5 of RFC 1951 |
| InflateTable.NoSymbolsOK | noVNC/include/inflator.js:2129-2143 | Without symbols every word resolves to the invalid marker |
| CodeTables.LengthsTile | noVNC/include/inflator.js:2030-2038 | Section 3.2.5 of RFC 1951: where the lengths of one symbol end, those of the next begin |
| CodeTables.DistancesTile | noVNC/include/inflator.js:2040-2051 | The same for distances, up to 32768 |
| CodeTables.EveryLength | noVNC/include/inflator.js:2030-2038 | Every length from 3 to 258 has a symbol and extra bits |
| CodeTables.EveryDistance | noVNC/include/inflator.js:2040-2051 | Every distance from 1 to 32768 has a symbol and extra bits |
| CodeLengths.CountLengths | noVNC/include/inflator.js:2114-2119 | Counts of the code lengths |
| CodeLengths.CheckLengths | noVNC/include/inflator.js:2151-2162 | What is left over is the Kraft sum taken from one, negative as soon as it is exceeded |
| CodeLengths.SortSymbols | noVNC/include/inflator.js:2170-2175 | Symbols sorted by length and, within a length, by value |
| CodeLengths.SortedFromRanks | noVNC/include/inflator.js:2170-2175 | Symbols at their ranks are sorted |
| Enough.EnoughForLens | noVNC/include/inflator.js:2239-2243 | 852 entries suffice for every complete literal/length code of at most 286 symbols |
| Enough.EnoughForDists | noVNC/include/inflator.js:2313-2317 | 592 entries suffice for every complete distance code of at most 30 symbols |
| FixedTables.CodesFit | noVNC/include/inflator.js:1425-1430 | 128 entries suffice for every code length code |
| Huffman.PrefixFree | noVNC/include/inflator.js:2083-2094 | Canonical codes (section 3.2.2 of RFC 1951) of sets that are not over-subscribed are prefix-free |
| Huffman.LookupMonotone | noVNC/include/inflator.js:1623-1636 | A symbol found in a bit string is found in every extension |
| Huffman.KraftIsSum | noVNC/include/inflator.js:2151-2162 | The sum that decides whether a set of lengths is complete is the Kraft sum over all symbols |
| Huffman.MatchesInterval | noVNC/include/inflator.js:2083-2094 | A symbol matches exactly the words in its interval of positions |
| TableWalk.NextCodeword | noVNC/include/inflator.js:2273-2283 | The successor of a code is the code of the next symbol in sorted order |
| Coding.CompleteCode | noVNC/include/inflator.js:2151-2162 | A set with Kraft sum one has a symbol for every word |
| Coding.LookupStable | noVNC/include/inflator.js:1623-1636 | Once held bits give an answer no further bits change it |
| Coding.RootEntry | noVNC/include/inflator.js:1623-1636 | What a root entry says about any number of held bits |
| Coding.SubEntry | noVNC/include/inflator.js:1641-1655 | What a sub-table entry says about any number of held bits |
| Coding.NoCodeAtOnce | noVNC/include/inflator.js:2328-2336 | That no code matches shows in the first bit |
| Adler.Adler32 | noVNC/include/inflator.js:112-134 | Blocks of 2000 bytes give the checksum of section 2.2 of RFC 1950, continued from any start: the sum of the bytes and the sum of the running sums, each modulo 65521, in closed form |
| Adler.Block | noVNC/include/inflator.js:121-128 | Within a block the sums are congruent to those of RFC 1950 and stay below 2^31 |
| Adler.ChecksumClosed | noVNC/include/inflator.js:112-134 | The low half is one plus the sum of all bytes, the high half the length plus the sum of all bytes times their distance from the end, modulo 65521 |
| Adler.SumsClosed | noVNC/include/inflator.js:121-128 | Reducing at every byte gives the same as the closed form, for any start |
| Adler.ChecksumExample | noVNC/include/inflator.js:112-134 | The checksum of one known byte, and of nothing |
| Adler.UpdateConcat | noVNC/include/inflator.js:112-134 | Checksumming two pieces in turn is checksumming their concatenation |
| ReceiveQueues.Websock.IsFifo | noVNC/include/websock.js:109-112 | The unread region is what was received without what was consumed |
| ReceiveQueues.Websock.DecodeMessage | noVNC/include/websock.js:386-394 | A message is appended, or refused exactly under the program's own limit test |
| ReceiveQueues.Websock.ExpandCompact | noVNC/include/websock.js:349-384 | Growing, shrinking and compacting keep the unread bytes, give the buffer exactly the size the program intends, make the room asked for and stay within 40 MiB |
| ReceiveQueues.Websock.Move | noVNC/include/websock.js:369-384 | Every copy fits its buffer, also onto itself |
| ReceiveQueues.Websock.AfterMessage | noVNC/include/websock.js:400-407 | Compaction after a message keeps the unread bytes |
| ReceiveQueues.Websock.RQshift8 | noVNC/include/websock.js:118-120 | The next byte in order of arrival |
| ReceiveQueues.Websock.RQshift16 | noVNC/include/websock.js:131-134 | Two bytes, the first one the high one, by quotient and remainder of 256 |
| ReceiveQueues.Websock.RQshift32 | noVNC/include/websock.js:136-141 | Four bytes as a 32-bit number in two's complement, the first one the high one |
| ReceiveQueues.Websock.RQshiftBytes | noVNC/include/websock.js:150-154 | The next `len` bytes in order of arrival |
| ReceiveQueues.Websock.RQwait | noVNC/include/websock.js:178-191 | Waiting un-reads exactly `goback` bytes; it fails only if they are no longer in the buffer, and never for bytes read since the handler was entered |
| ReceiveQueues.Websock.Handle | noVNC/include/websock.js:400-401 | A handler that reads what it has waited for and goes back over what it has read itself never fails |
| ReceiveQueues.Websock.RecvMessage | noVNC/include/websock.js:396-420 | Decode, handler, compaction: everything received is appended, the handler's reads are what is consumed, and compaction happens only outside the handler |
| ReceiveQueues.NewSizes | noVNC/include/websock.js:349-369 | The size of the buffer in numbers: eight times what is needed or twice the size, at most 41943040 |
| ReceiveQueues.Roomy | noVNC/include/websock.js:349-369 | The new size has room for the bytes copied and for the message |
| ReceiveQueues.RefusesTooMuch | noVNC/include/websock.js:363-367 | Exactly when the limit test refuses a message that would fit: bytes already read are still in the buffer and the message comes within twice their number of the limit |
| ReceiveQueues.RefusesExample | noVNC/include/websock.js:363-367 | A concrete message that would fit and is refused |
| Keyboard.VerifyCharModifier.Process | noVNC/include/keyboard.js:386-427 | One pass delivers exactly the batch up to the next stall; delivered plus queued events are the arrivals in order; nothing is delivered while the timer is pending |
| Keyboard.VerifyCharModifier.Arrive | noVNC/include/keyboard.js:428-431 | Between steps no timer means an empty queue |
| Keyboard.VerifyCharModifier.DelayProcess | noVNC/include/keyboard.js:392-396 | The timer delivers the next batch |
| Keyboard.NothingLost | noVNC/include/keyboard.js:398-426 | No keyup is lost, changed or reordered, no keydown is lost, a keypress disappears only into a keydown |
| Keyboard.MergedFields | noVNC/include/keyboard.js:407-418 | The merged event field by field: key of the keydown, keysym of the keypress, and whose escape it takes |
| Keyboard.BatchMerges | noVNC/include/keyboard.js:407-418 | A keydown with a keypress behind it is delivered as one event with those fields, and the rest of the queue as before |
| Keyboard.TypeCharacter | noVNC/include/keyboard.js:398-432 | A stall, a keydown and a keypress: one event with the key of the keydown and the keysym of the keypress exactly if the keypress arrives before the timer fires, and otherwise both as they are |
| Keyboard.TrackKeyState.OnKeyDown | noVNC/include/keyboard.js:447-460 | A keydown is tracked; its keysym is recorded before any keyup |
| Keyboard.TrackKeyState.OnKeyPress | noVNC/include/keyboard.js:461-477 | A keypress is sent once at most |
| Keyboard.TrackKeyState.OnKeyUp | noVNC/include/keyboard.js:478-506 | The matched or guessed entry is released with all its keysyms, and no other keysym is left stuck |
| Keyboard.TrackKeyState.OnReleaseAll | noVNC/include/keyboard.js:507-517 | No stuck keys: after releaseall every keysym sent down has a later keyup |
| Keyboard.Forget | noVNC/include/keyboard.js:494-504 | Forgetting a released entry leaves every keysym that is down in some entry |
| Des.Enc8 | noVNC/include/des.js:188-266 | The block is swap network, sixteen Feistel rounds and swap network of its bytes |
| Des.CipherByStandard | noVNC/include/des.js:188-266 | A block is enciphered as FIPS PUB 46-3 describes it: the initial permutation bit by bit, the rounds, and the inverse permutation on exchanged halves |
| Des.RoundIs | noVNC/include/des.js:217-239 | A round is the exchange of the halves and the sum of eight table entries, each indexed by six consecutive bits of the half and six bits of its own key byte |
| Des.RoundShares | noVNC/include/des.js:217-239 | The same law for all eight tables: which bits of the half and of which key word index which table |
| Des.InitialBits | noVNC/include/des.js:198-215 | The initial network is the initial permutation of FIPS PUB 46-3, up to the rotation of the halves |
| Des.FinalBits | noVNC/include/des.js:241-258 | The final network is its inverse |
| Des.TextBits | noVNC/include/des.js:192-194 | The bits of a block are those of its bytes in order, each from the high bit down |
| Des.BlockBack | noVNC/include/des.js:188-266 | Enciphering with the key pairs reversed recovers every block ("Deciphering" in FIPS PUB 46-3), for all keys and tables |
| Des.Deciphering | noVNC/include/des.js:188-266 | The same on words |
| Des.EncipherDecipher | noVNC/include/des.js:188-266 | Running enc8 on its own output with the pairs of the key array reversed gives the text back |
| Des.KeysReversed | noVNC/include/des.js:155-181 | Reversing the pairs in the key array reverses the order of the round keys |
| Des.InitialFinal | noVNC/include/des.js:198-215 | The initial network undoes the final one on exchanged halves |
| Des.FinalInitial | noVNC/include/des.js:241-258 | The final network undoes the initial one on exchanged halves |
| Des.RoundsBack | noVNC/include/des.js:217-239 | Any number of rounds is undone by as many with reversed keys |
| Des.TwoRounds | noVNC/include/des.js:217-239 | One pass through the loop is two rounds with exchanged halves |
| Des.Encrypt | noVNC/include/des.js:268-271 | Two blocks one after the other |
| Base64.Encode | noVNC/include/base64.js:15-47 | The loop produces the encoding, padded to groups of four |
| Base64.Decode | noVNC/include/base64.js:63-112 | The bit-collecting loop produces the bytes of the legal characters; it fails exactly when their number is not a multiple of four |
| Base64.RoundTrip | noVNC/include/base64.js:15-112 | Decoding an encoding gives the data back, in an array of exactly its length, for every length mod 3 |
| Base64.CharsOfTable | noVNC/include/base64.js:12 | The 64 characters are those of Table 1 of RFC 4648 |
| Base64.ValuesOfTable | noVNC/include/base64.js:51-60 | The decoder inverts that table |
| Base64.OnlyTable | noVNC/include/base64.js:51-60 | Characters that are not in the table and not padding are not legal, up to the high bits of their code |
| Base64.SplitDigits | noVNC/include/base64.js:23-28 | The four sextets are the base-64 digits of the three bytes |
| Base64.RoundTripAt | noVNC/include/base64.js:63-112 | The same behind anything without padding, with an offset |
| Base64.RoundTripBetween | noVNC/include/base64.js:83-88 | The same with characters that are not legal in between and an offset |
| Base64.PadPlace | noVNC/include/base64.js:66-75 | Where the first padding character is |
| ClassWalks.WalkClassHierarchy | cinder/cinder/utils.py:558-568 | On every finite acyclic class graph: exactly the strict descendants, each once, each after all of its own descendants |
| ClassWalks.Walker.Walk | cinder/cinder/utils.py:558-568 | The recursion ends, yields all subclasses of its class, and only descendants |
| ClassWalks.MostDerivedFirst | cinder/cinder/utils.py:558-568 | Subclasses before their bases implies descendants before their ancestors |
| ClassWalks.AllYielded | cinder/cinder/utils.py:558-568 | With the direct subclasses all descendants have been yielded |

## Left out

- gzip framing, header structures and crc32: unreachable, since `inflateInit` always selects zlib framing.
- The `Z_BLOCK` and `Z_TREES` early exits, and supplying a preset dictionary: a stream that asks for one ends the run.
- `inflateReset` on an object that already has a window: it forgets the window size but keeps the window, and the
  window invariant is stated for runs from `inflateInit`.
- Error texts, `data_type`, `back`, `was`, `state.total` (equal to `total_out`) and `strm.adler` (a copy of `check`).
- Runs.WrapperInflate: what a later call makes of a stream from which the wrapper has dropped input is not modelled.
- InflateTable.Build: table entries are records of bits, operation and value instead of packed numbers, and the table
  always starts at index 0, as all callers have it.
- FixedTables.UseFixed: the fixed tables belong to the object instead of the module, so sharing between streams is not modelled.
- Streams.NeedBits: the held bits are a natural number below 2^32; at 32 bits the program's number may be negative, and
  only its bits are used.
- ReceiveQueues.Websock.ExpandCompact: nothing is promised after a refusal, when the size field no longer matches the buffer.
- ReceiveQueues.Websock.RQshiftBytes: returns a copy, while the program returns a view of the buffer that a later
  message may overwrite.
- ReceiveQueues.Websock.Handle: a handler is a sequence of reads and waits, without what it does with the bytes; the send queue, text mode and the browser socket are not modelled.
- Keyboard.TrackKeyState.OnKeyUp: which entry a keyup belongs to is guessed by the program, so no exact matching is claimed.
- Keyboard.VerifyCharModifier.Process: the next stage does not call back into the queue; DOM events, keysym lookup, modifier
  synchronisation and the escaping stage are not modelled.
- Des.Enc8: the tables SP1 to SP8 and the 32 round key words are parameters; the key schedule and the contents of the tables
  are not compared with FIPS PUB 46-3.
- Base64.Decode: an offset beyond the end of the string, where the program fails to allocate, is not modelled; nor are the
  messages for characters that are not legal.
- ClassWalks.WalkClassHierarchy: the generator is run to its end, with a class graph that does not change meanwhile.
- noVNC's canvas and user interface, Cinder's quota accounting, and the Glance, Keystone and Horizon services: wrappers over
  stores, browsers and databases that are not part of this model.
