# Verified model of the DNS packet engine, the resolver core and the tree chat

The project models two components of the repository and proves properties of them.

**The DNS packet engine and resolver core** (`seventh/dns.c`).

* *Names and compression* (`Names`, `Compress`, `Dictionary`, `Depth`, `StaleLabel`, `Termination`, `Letters`,
  `Spelling`, `NameReading`, `NameWriting`). A packet is a byte buffer; names are written as labels or as pointers
  to a suffix found through a 16-slot dictionary. The comparison loop of the encoder goes on from the label it last
  stopped at. `Compress.MeaningKept` and `Dictionary.CompressionExact` state exactly when that keeps the meaning of
  a name, `StaleLabel.RunGoesWrong` is a run of three pushes after which it is not kept, and
  `Dictionary.DistinctLabelsFaithful` shows that names without repeated labels are always safe. That pointer runs
  stay below the reader's limit of 127 is not assumed: `Depth` proves that sixteen slots never build a run of more
  than 33 in runs of successful pushes, and of more than two further for each slot that a failed push gave away.
  `Letters` says what "up to case" is on the bytes of names, and `Spelling.ExpandExact` what a name in a packet is,
  without the reader: on any bytes the reader returns a name if and only if it is spelled there.
* *Records* (`Records`, `Pushing`, `Layout`, `Built`, `Growing`, `RecordData`, `Faithfulness`, `RoundTrip`,
  `Failures`, `DeepRun`, `Returned`, and in place `Packet`, `RecordReading`, `RecordPushing`). Pushing, skipping,
  parsing, sections and the memo. The main results are `RoundTrip.PacketRoundTrip` and
  `RoundTrip.DistinctRoundTrip`: after any run of successful pushes on a fresh packet of at most 65535 bytes the
  memo equals what a rescan computes, and listing the packet returns exactly those records if and only if every push
  was faithful, which runs whose names repeat no label are. `Failures` says exactly when a failed push leaves the
  packet in order for these theorems and carries the round trip over to runs with failed pushes;
  `DeepRun.NoRoomSpoils` is a run that fails for lack of room too often. `Returned` restates the round trip by
  values, field by field of every record, and gives the octets that stand for a run in the packet.
  `Records.FastSectionRefinesSlow` holds for any bytes. The message format is that of sections 4.1.1 to 4.1.4 and
  3.3.14 of RFC 1035.
* *Enumeration* (`Enumerate`, `Iteration`, `Shuffle`). The iterator selects the next record in an order, with
  nothing marked. On any bytes with a coherent memo it returns every matching record exactly once, in packet order
  and in shuffled order alike, because the shuffle is injective for every seed.
* *Query ids* (`Permutor`, with `Bits` and `Counting`): a Feistel permutation with cycle walking. The keyed round
  function is an arbitrary function; only its masking is used.
* *The resolver's stack machine* (`Resolver`, `ResolverLaws`, `ResolverExec`): eight frames, 24 states. What
  lookups, sockets, caches and parses yield is an input of every step. `Resolver` proves what every run keeps;
  `ResolverLaws` says of every state which outcome leads where, in every run, and what that comes to over whole
  resolutions.
* *Merging* (`Comparing`, `Coincide`, `Merge`, `MergeGiven`, `MergeHeld`, `MergeLoss`, `MergeLoops`). Records are
  read from the bytes of both packets, and a record of the second is compared with those read back from the new one.
  Comparing with what was pushed instead would give the same merge whenever every push is faithful;
  `MergeLoss.MergeLoses` is a merge of two packets, given as bytes, that loses a record because one push was not.
  `Coincide` says by values when two records compare equal, what a merge keeps, and which records it leaves out.
* *Stream reassembly* (`TcpRecv`, section 4.2.2 of RFC 1035), the *search-name generator*
  (`Search`) and the *lookup string* (`NssConf`).

**The tree chat over UDP** (`third/`).

* `Link`: one direction of a link over a network that loses, repeats and reorders lines and loses and reorders
  confirms. `Flood`: flooding over the forest of neighbours, with links that deliver a prefix of what was put on
  them. `Network` puts the two together, one link for every ordered pair of nodes, and shows that every run over the
  lossy network is a run of flooding. `Delivery` proves the other half of at most once: when all has settled every
  node of the tree has the line. `Chat`: the node in place, one round of each of its threads, each tied to the
  steps of the links it concerns. `ChatRounds` ties the same rounds to the steps of `Network`: as long as a node
  stands in the whole chat, its rounds keep it there, so that `Network.AtMostOnce` is about that node.

How the pieces fit together: wherever the original changes a buffer, a counter or a frame, there is a class or a
method that does the same in place, proved to compute a specification function; the properties are proved about
those functions. `Packet.Buffer.State` is the value of the packet buffer, `RecordPushing.PushRec` is proved against
`Pushing.Push`, and the theorems of `RoundTrip` are about runs of `Pushing.Push`. `hide` statements in proofs only
limit what the verifier looks at.

Readings of the source that the model follows:

* `dns_l_expand` returns length 0 both for the root and for invalid bytes; both end a search.
* A failed push restores the end of the packet but not the dictionary. A slot may then wait at the old end for the
  next name pushed, and `Dictionary.DictOk` allows for that. Only a push that is refused although it fits can leave a
  slot that points past the end (`Failures.StraysExact`; `Failures.RefusedAnswerStrays` gives one). A push that fails
  for lack of room may still put its owner's name in the place of the name it ends in. Then one slot less holds the
  pointer runs down; the reader's limit leaves room for 46 such pushes, and `DeepRun.NoRoomSpoils` uses up more.
* `dns_txt_cmp` and `dns_any_cmp` never call two text records, or two records of an unknown type, equal, so a merge
  keeps such records of both packets.
* `dns_p_push` studies the packet before it counts the new record, so the first push studies a packet whose counts
  are still zero.
* `dns_d_expand` resets its pointer count after every label, so some packets keep it running for ever;
  `NameReading.DExpand` requires that the name at hand is not one of those, and every name the encoder writes is safe.
* In `dns_res_exec` a case that falls through to the next state is a step to that state.
* The receiver of the chat sends a confirm before it counts the line, so for a moment one more confirm is out than
  lines are counted; `Link.ConfirmsConserved` says so.

## Model

| member | source | states |
|---|---|---|
| Names.Skip | seventh/dns.c:2325-2359 | Skipping a name moves forward and never past the end of the packet, on any bytes |
| Names.NameAtExtends | seventh/dns.c:2364-2440 | Appending bytes, or changing the header, leaves every stored name readable as the same labels |
| Names.StoredLabels | seventh/dns.c:2364-2440 | Every label of a stored name has 1 to 63 bytes |
| Names.LabelOfStored | seventh/dns.c:2043-2089 | l_expand at a stored name yields its first label and an offset at which the rest is stored, and the empty label exactly at the root |
| Names.RunHops | seventh/dns.c:2072-2073 | A stored name can still be read after h more pointers exactly when its own run of pointers fits the limit of 127 |
| Names.ReadStored | seventh/dns.c:2364-2440 | d_expand reads every stored name back, in at most 128 steps for every label and the end |
| Names.LiteralLabels | seventh/dns.c:2244-2278 | Labels written literally in front of a name read back in front of it, and the name ends where that one ends |
| Termination.NeverEnds | seventh/dns.c:2369-2425 | On any bytes d_expand never ends if and only if the places it visits, an offset with the pointers followed since the last label, come back to one already visited |
| Termination.HaltsInTime | seventh/dns.c:2369-2425 | On any bytes a reading that ends takes at most 128 steps per packet byte |
| Termination.CycleNeverRead | seventh/dns.c:2405-2418 | A concrete packet, a label followed by a pointer back to it, on which d_expand never ends |
| Spelling.ExpandExact | seventh/dns.c:2043-2089 | On any bytes d_expand returns a name if and only if it is spelled there: its labels, each of 1 to 63 octets behind its length, up to a zero octet, with at most 127 pointers in a row in front of each; stated without the reader |
| Spelling.StoredSpelled | seventh/dns.c:2234-2322 | What the encoder stores is spelled there |
| Letters.SameLabelExact | seventh/dns.c:2293 | Labels are the same up to case if and only if they have as many bytes, and in every place the same byte or a letter of 65 to 90 against the byte 32 higher |
| Letters.CaseEqualExact | seventh/dns.c:2293 | What strcasecmp compares: the bytes before the first NUL of either text, the same but for the case of letters |
| Letters.TextExact | seventh/dns.c:2369-2425 | The dotted text of a name: each label in its place, a dot behind each, nothing else, and one dot for the root |
| Compress.DraftDotted | seventh/dns.c:2248-2264 | The segments written for the dotted text of a good name are its wire labels, each length in front of its label |
| Compress.PlainOfName | seventh/dns.c:2248-2278 | With or without the final dot, the uncompressed form written for the text of a name is the wire form of the name |
| Compress.AdvanceHit | seventh/dns.c:2293-2296 | The inner comparison ends with both names used up exactly when they agree, label by label, from the two starting points |
| Compress.ScanMatch | seventh/dns.c:2288-2312 | A hit among the candidates agrees with the suffix everywhere but in its first label, which agrees with the label left in hand |
| Compress.SearchMatch | seventh/dns.c:2287-2315 | The same for the whole search over suffixes: the pointer fits 14 bits and its target is an offered name |
| Compress.MeaningKept | seventh/dns.c:2293-2306 | The pointer keeps the meaning of the name exactly when the label in hand is, up to case, the first label of the suffix it replaces |
| Compress.NoRepeatKeepsMeaning | seventh/dns.c:2293-2306 | A match whose target repeats no label was begun with the right label in hand and keeps the meaning |
| Compress.ShorterThanPlain | seventh/dns.c:2298-2306 | A compressed form is strictly shorter than the plain one |
| Dictionary.OfferedOk | seventh/dns.c:2287-2293 | Everything a well-formed dictionary offers is a good name stored inside the packet |
| Dictionary.OfferedExtends | seventh/dns.c:2287-2293 | Bytes written after the stored names change nothing that is offered |
| Dictionary.NamePushed | seventh/dns.c:2443-2460 | After a push the bytes at the old end are a stored name that ends at the new end and reads as the meaning of the match used, unless the run of pointers would pass the limit |
| Dictionary.CompressionExact | seventh/dns.c:2234-2322 | The pushed name reads back, up to case, as given if and only if no match is used or the match began with the right label in hand and can bear one more pointer |
| Dictionary.DistinctLabelsFaithful | seventh/dns.c:2293-2296 | If no offered name repeats a label and their pointer runs are short, every push is faithful |
| Letters.CompressionLetters | seventh/dns.c:2234-2322 | The pushed name reads back the same byte for byte but for the case of letters, if and only if no match is used, or the label in hand is so the same as the first label it replaces and the match can bear a pointer more |
| Letters.StoredFound | seventh/dns.c:2287-2315 | A name is written with a pointer when one of its suffixes is on offer within 14 bits and nothing offered before it begins with the suffix's first label; when that suffix is the whole name, the pointer is to the name on offer |
| StaleLabel.WrongPointer | seventh/dns.c:2293-2301 | In the packet that questions for a.x. and b.b. leave, the name a.b. is written as a pointer to b.b. |
| StaleLabel.RunGoesWrong | seventh/dns.c:2293-2301 | Pushing questions for a.x., b.b. and a.b. on a fresh packet of any size from 40 bytes succeeds, and the third question is then held as one for b.b.: a run that is not faithful |
| Depth.ShortBelow | seventh/dns.c:1711-1740 | What a shortened name adds to the pointer runs on offer, by whether it takes the slot of its target |
| Depth.NameBounded | seventh/dns.c:1711-1740 | Pushing a name keeps all runs of pointers on offer below two for every dictionary slot in use and for every slot a failed push gave away, plus one |
| Depth.BoundedShallow | seventh/dns.c:2072-2073 | With the runs so bounded the run behind any match is at most 33 pointers long, of the 127 allowed, and two more for each slot that a failed push gave away, of which there is room for 46 |
| Depth.RecordBounded | seventh/dns.c:1743-1775 | A successful push of a record keeps the bound, also when failed pushes before it left slots waiting, and no match it uses meets the reader's limit |
| Records.Next | seventh/dns.c:2578-2610 | rr_skip strictly advances and never passes the end of the packet, on any bytes |
| Records.Parse | seventh/dns.c:2518-2575 | rr_parse only succeeds on an offset inside the packet, which it reports |
| Returned.ParseExact | seventh/dns.c:2518-2575 | On any bytes: rr_parse reports type, class, TTL and length as big-endian numbers read behind the owner's name, a question before the end of the questions, and fails when the data would pass the end |
| Returned.NextExact | seventh/dns.c:2578-2610 | On any bytes: the next record stands four octets behind a question's name, behind the data of any other record, or at the end of the packet when anything is cut short |
| Returned.SkipExact | seventh/dns.c:2325-2359 | On any bytes: the end of a name is behind its zero octet or its first pointer, after labels of 1 to 63 octets, and the end of the packet when there is no such end |
| Records.AfterAdd | seventh/dns.c:1912-1924 | Counting m records on and then n more is counting m + n on |
| Records.OrdinalBelow | seventh/dns.c:2628-2629 | On any bytes a record has fewer than n records before it exactly when it starts below the offset n records on |
| Records.SpanEnds | seventh/dns.c:1926-1953 | The studied section ranges end where the cumulative header counts of records do |
| Records.FastSectionRefinesSlow | seventh/dns.c:2613-2641 | On a studied packet the range test gives every record the section that counting records against the cumulative header counts gives, empty sections included |
| Layout.FaithfulShallow | seventh/dns.c:2234-2322 | A name within the pointer limit is stored as given, up to case, exactly when its push is faithful |
| Layout.NamePut | seventh/dns.c:2443-2460 | A successful d_push appends a stored name, fills every pending dictionary slot and stays within the buffer |
| Layout.GapIrrelevant | seventh/dns.c:3228-3237 | What stands in the two length bytes before a name does not matter to its encoding |
| Layout.HostLength | seventh/dns.c:3221-3244 | The length written in front of data that ends in a name is the number of bytes that follow it |
| Layout.HostName | seventh/dns.c:3221-3244 | The name in such data is stored after the fixed bytes and ends at the end of the packet |
| Layout.ChunksSize | seventh/dns.c:3889 | Text of n bytes takes n + ceil(n / 255) bytes in counted pieces |
| Layout.ChunksRoundTrip | seventh/dns.c:3841-3911 | Reading counted pieces gives back the text exactly when it fits the reader's buffer |
| Layout.RDataPut | seventh/dns.c:4023-4039 | Successfully pushed data is stored with its length, as what the push holds |
| Layout.RecordPut | seventh/dns.c:1743-1775 | A push that fits leaves, at the old end, the record it holds: name, type, class, clamped TTL and data, and nothing after it |
| Layout.RecAtExtends | seventh/dns.c:1743-1775 | A stored record stays as it is when bytes are appended or the header changes |
| Built.QEndOf | seventh/dns.c:1554-1571 | On a packet that holds records, p_qend is the offset of the first record that is no question |
| Built.NextHeld | seventh/dns.c:2578-2610 | rr_skip leads from each held record to the next |
| Built.ParseHeld | seventh/dns.c:2518-2575 | rr_parse reports each held record's type, class, clamped TTL and data range, and its name is stored there |
| Built.SectionHeld | seventh/dns.c:2613-2641 | rr_section gives each held record its section |
| Built.StudyHeld | seventh/dns.c:1926-1958 | What p_study computes on a packet that holds records: ranges at the record offsets and the first OPT record of the additional section |
| Growing.BumpCount | seventh/dns.c:1785 | Counting a record changes its section's header count by one and no other byte that is read |
| Growing.PutAppends | seventh/dns.c:1743-1775 | A push only appends: the old packet is a prefix of the new bytes |
| Growing.StudyEmpty | seventh/dns.c:1782-1783 | Studying a packet whose counts are all zero finds only empty sections and no OPT record, whatever stands after the header |
| Growing.MemoGrows | seventh/dns.c:1777-1839 | The memo fields a push sets equal the ranges and OPT entry of the longer packet |
| Growing.PushHolds | seventh/dns.c:1743-1859 | A successful push on a packet that holds records adds exactly the record it holds, keeps counts, sections and dictionary in order, and leaves the memo equal to that of the longer list |
| Failures.AddedFree | seventh/dns.c:1711-1740 | A name added to the dictionary uses up a free slot unless it ends in a pointer to a name that has a slot, or none is free |
| Failures.FailedExact | seventh/dns.c:1841-1858 | After a failed push the packet is in order for every theorem about later pushes, the bound on pointer runs included, if and only if no name in the record's data took a dictionary slot, which is never when the record did not fit; the bound loses one of its 46 spare steps when the owner's name took the slot of the name it ends in, and none otherwise |
| Failures.StraysExact | seventh/dns.c:1711-1858 | When a failed push does take such a slot, from the packet and the record: it was refused although it fits, its data holds a name, and two slots are free, or one that its owner's name does not use up, or that name ends in a pointer to a name that has a slot |
| Failures.SpentFailures | seventh/dns.c:1711-1740 | A run spends at most one step for every push that fails |
| Failures.AttemptsSound | seventh/dns.c:1743-1859 | After any run of pushes, failed ones among them, the packet holds what the successful ones stored and the memo is what a rescan computes, as long as no failed push took a slot for a name in its data and they spend at most 46 steps |
| Failures.AttemptsRoundTrip | seventh/dns.c:1743-1859 | For such runs on a fresh packet, listing it returns exactly the records whose pushes succeeded, in order, if and only if those pushes were faithful |
| Failures.DistinctAttempts | seventh/dns.c:2293-2296 | In such runs the pushes are faithful when no name repeats a label |
| DeepRun.NoRoomSpoils | seventh/dns.c:1841-1858 | The limit on what is spent is needed: a run on a packet of at least 4096 bytes whose failures are all for lack of room and whose names repeat no label, after which a push succeeds and stores a name that the reader finds illegal, its run of pointers being too long |
| Failures.StraysFree | seventh/dns.c:1711-1740 | With two free slots, the data of a record that fits always takes one |
| Failures.RefusedAnswerStrays | seventh/dns.c:1777-1803 | A concrete run: an NS record pushed as an answer after an additional record is refused, and leaves a slot that points past the end of the packet |
| RecordData.ExpandStored | seventh/dns.c:2364-2440 | d_expand returns every stored name, without a bound on its length chosen here |
| RecordData.AnyParseStored | seventh/dns.c:4007-4020 | Parsing stored data of a modelled type gives what was stored, if the caller's buffers are large enough; SOA, SRV, SSHFP and OPT data are not parsed here |
| Faithfulness.SameRecExact | seventh/dns.c:1743-1775 | The stored record is the given one, up to case and TTL clamping, if and only if every match the push used began with the right label in hand |
| Faithfulness.RecordClean | seventh/dns.c:1743-1775 | As long as no name repeats a label, every push is faithful and no dictionary entry repeats one |
| RoundTrip.PushSound | seventh/dns.c:1743-1859 | One successful push, with no hypothesis on pointer runs: the packet holds one record more and the memo equals a rescan |
| RoundTrip.RunSound | seventh/dns.c:1743-1859 | After any run of successful pushes on a fresh packet the packet holds the run's records and the memo is what p_study would compute |
| RoundTrip.RunExact | seventh/dns.c:1743-1859 | The records held are the given ones if and only if every push of the run was faithful |
| RoundTrip.DistinctFaithful | seventh/dns.c:2234-2322 | Runs in which no name repeats a label are faithful |
| RoundTrip.ListingHeld | seventh/dns.c:2912-2947 | Listing a packet that holds records reports each of them once, in order, with its section |
| RoundTrip.PacketRoundTrip | seventh/dns.c:1743-1859 | Whole-packet round trip: after any run of successful pushes on a fresh packet, listing returns exactly the pushed records in order, with section, type, class, clamped TTL, names up to case and data, if and only if every push of the run was faithful (the converse for a caller whose buffers hold the data); and the memo equals a rescan |
| RoundTrip.DistinctRoundTrip | seventh/dns.c:1743-1859 | The round trip for all runs in which no name repeats a label |
| Returned.PacketReturned | seventh/dns.c:1743-1859 | The round trip by values: after any run of successful pushes on a fresh packet as many records are listed, each with the section, type and class given, the TTL given when the type is 41 or it is at most 2147483647 and 2147483647 otherwise, 0 for a question, the name byte for byte but for the case of letters, and the data, if and only if the run was faithful |
| Returned.DistinctReturned | seventh/dns.c:1743-1859 | So it is for all runs in which no name has two labels that are the same but for the case of letters |
| Returned.RunOctets | seventh/dns.c:1743-1775 | After any run of successful pushes, faithful or not, the records stand one behind the other from offset 12 on, each the owner's name, then type and class in two octets, the TTL so cut in four and the data's length in two, the highest octet first, and the data; the header counts them by section, and the memo, once anything was pushed, has the offsets between which each section's records stand and the offset, class and TTL of the first OPT record among the additional ones |
| Returned.PushOutcome | seventh/dns.c:1771-1859 | A push fails for lack of room, or else for a section that is none of 1, 2, 4 and 8, or else because the header counts records of a later section, and for no other reason; without a name in its data a record has room exactly when its name and its fields fit |
| Packet.Buffer.constructor | seventh/dns.c:1533-1546 | A fresh packet: a zero header, an empty dictionary and an empty memo |
| Packet.LExpand | seventh/dns.c:2043-2089 | l_expand in place computes the label and the next offset, pointers followed; its retry loop ends by the pointer limit |
| Packet.LSkip | seventh/dns.c:2092-2117 | l_skip in place computes the offset of the next label |
| Packet.DSkip | seventh/dns.c:2325-2359 | d_skip in place computes the end of the name |
| NameReading.PlaceAt | seventh/dns.c:2369-2425 | What one pass of the reading loop finds, related to the rest of the reading |
| NameReading.EndName | seventh/dns.c:2376-2388 | The text ends in a NUL inside the caller's limit, and the root is a single dot |
| NameReading.DExpand | seventh/dns.c:2364-2440 | d_expand in place: the length of the dotted text and the text itself as a C string cut to the limit, or 0; nothing beyond the limit is touched |
| NameWriting.WritePlain | seventh/dns.c:2248-2278 | The first loop of d_comp writes the plain form as far as it fits and nothing before it |
| NameWriting.PlainLabels | seventh/dns.c:2287 | Reading the plain form label by label gives the labels of the name at the offsets where they were written |
| NameWriting.AdvanceNames | seventh/dns.c:2293-2296 | The inner loop, in place, computes the comparison from two label positions |
| NameWriting.CompareNames | seventh/dns.c:2291-2296 | One candidate against the suffix, with the label in hand carried over from the one before |
| NameWriting.ScanSlot | seventh/dns.c:2288-2312 | The loop over the suffixes of one dictionary entry computes the scan over what that entry offers |
| NameWriting.ScanDict | seventh/dns.c:2285-2313 | The loop over the dictionary computes the scan over everything offered, in slot order |
| NameWriting.FindSuffix | seventh/dns.c:2287-2315 | The loop over the suffixes of the new name computes the search, with the offset of the suffix and of its match |
| NameWriting.DComp | seventh/dns.c:2234-2322 | d_comp in place writes exactly the specified encoding and returns its length, leaving the packet below its end alone |
| NameWriting.DictAdd | seventh/dns.c:1711-1740 | p_dictadd in place: the slot of the name the new one ends in, or the first free slot, or none |
| NameWriting.DPush | seventh/dns.c:2443-2460 | d_push in place: the packet grows by the encoding and the dictionary by the name, or nothing changes |
| RecordReading.EndOfQuestions | seventh/dns.c:1554-1571 | p_qend in place |
| RecordReading.RRSkip | seventh/dns.c:2578-2610 | rr_skip in place |
| RecordReading.RRParse | seventh/dns.c:2518-2575 | rr_parse in place |
| RecordReading.SectionByCount | seventh/dns.c:2631-2640 | Shifting the section while the cumulative counts do not pass the index gives the section of the counted record, or none |
| RecordReading.RRSection | seventh/dns.c:2613-2641 | rr_section in place: the range tests and then the count |
| RecordReading.StudySection | seventh/dns.c:1912-1924 | s_study in place |
| RecordReading.FindOpt | seventh/dns.c:1942-1947 | The loop for the first OPT record of the additional section, in place |
| RecordReading.StudyPacket | seventh/dns.c:1926-1958 | p_study in place sets the memo to what a rescan computes |
| RecordReading.TxtParse | seventh/dns.c:3841-3868 | txt_parse in place: the joined text in the caller's buffer, or an error exactly when a piece runs past the record or the text past the buffer |
| RecordPushing.TxtPush | seventh/dns.c:3871-3911 | txt_push in place: on success the packet grows by 2 and the counted pieces, on failure its end is unchanged |
| RecordPushing.HostFromName | seventh/dns.c:3221-3244 | Pushing the name over whatever stands in the length bytes and then filling in the length gives the specified data and dictionary |
| RecordPushing.HostPush | seventh/dns.c:3221-3244 | The push of NS, CNAME, PTR and MX data in place, rolled back when the name does not fit |
| RecordPushing.AnyPush | seventh/dns.c:4023-4039 | any_push in place for the modelled types |
| RecordPushing.PushRecord | seventh/dns.c:1743-1775 | The writing half of p_push in place |
| RecordPushing.Update | seventh/dns.c:1777-1839 | The header count and the memo after a record, in place, studying first when the section's base is not known |
| RecordPushing.PushRec | seventh/dns.c:1743-1859 | p_push in place: the state after it is the specified one, and a failed push leaves bytes, end, counts and memo as they were and reports the right error |
| Enumerate.KeyInjective | seventh/dns.c:2861-2901 | In either order two records with the same key stand at the same offset |
| Enumerate.SelectedExactly | seventh/dns.c:2754-2858 | Repeated selection of the least key above the last one returns each matching element exactly once, in ascending order |
| Enumerate.SelectedInOrder | seventh/dns.c:2806-2858 | In a list already in the order, selection is filtering |
| Enumerate.EnumerationExact | seventh/dns.c:2754-2947 | On any bytes, for any filter and for packet order and the shuffle alike, each matching record is returned exactly once in increasing key order |
| Enumerate.EnumerationAsked | seventh/dns.c:2716-2751 | By values: a listed record is selected if and only if the mask is 0 or has its section's bit 1, 2, 4 or 8, its type is the wanted one or that is 0 or 255, the same for its class, and the extra test holds; and it is selected once |
| Enumerate.PacketOrderLists | seventh/dns.c:2912-2947 | With no filter, packet order returns the records of the packet as they stand |
| Iteration.StartComplete | seventh/dns.c:2754-2770 | With a coherent memo, starting at the base of the filter's first section loses no record |
| Iteration.Compare | seventh/dns.c:2861-2901 | The two comparisons, shuffle values computed in place, order records by their keys |
| Iteration.Select | seventh/dns.c:2771-2801 | The scan for the first match and then for a lesser one finds the best record; in packet order the first match is the best |
| Iteration.First | seventh/dns.c:2754-2803 | rr_i_start in place |
| Iteration.Following | seventh/dns.c:2806-2858 | rr_i_skip in place |
| Iteration.Grep | seventh/dns.c:2912-2947 | rr_grep in place: the records returned and those still to come are together what was still to come before, at most the limit are returned, and fewer only at the end; a first call that returns fewer returns exactly the listed records of a section of the mask with the type and class asked for, 0 and 255 asking for all, that pass the extra test |
| Iteration.PushedThenGrepped | seventh/dns.c:1743-1859 | A new unfiltered iterator in packet order returns exactly the records pushed by a run in which no name repeats a label |
| Shuffle.SboxInverse | seventh/dns.c:644-676 | The byte box has an inverse, checked for every byte |
| Shuffle.RoundInverse | seventh/dns.c:683-688 | One round on a pair of bytes can be undone, for every key byte |
| Shuffle.ShuffleInjective | seventh/dns.c:643-691 | For every seed shuffle16 is injective in its first argument |
| Shuffle.SeedMatters | seventh/dns.c:679-690 | Each of the four low octets of the seed matters: for every offset, two seeds that differ in one of them alone give different values, and octets above them change nothing |
| Shuffle.ComputeShuffle16 | seventh/dns.c:679-690 | The loop computes the shuffle value |
| Permutor.FeistelInverse | seventh/dns.c:582-617 | For any round function bounded by the mask and any round count of at least 2, D undoes E and E undoes D on the whole range, and both stay in it |
| Permutor.EncryptPeriodic | seventh/dns.c:585-587 | Only the low bits of the counter matter, so its wrap-around at 2^32 is invisible |
| Permutor.GapStep | seventh/dns.c:623-625 | Every output at or above the length brings the counter one step closer to one below it: cycle walking ends |
| Permutor.OutsDistinct | seventh/dns.c:620-628 | Outputs kept within one period are distinct |
| Permutor.Coverage | seventh/dns.c:620-628 | Any `length` consecutive calls return every value of low..high exactly once |
| Permutor.QueryIds | seventh/dns.c:6401-6403 | With low 1 and high 65535 no id is 0 and none repeats within any 65535 consecutive ids |
| Permutor.PowerOf | seventh/dns.c:534-541 | The least i with 2^i at least n |
| Permutor.HalfWidth | seventh/dns.c:552-555 | The half width covers the length: 2^(2*shift) is at least length |
| Permutor.Permutor.constructor | seventh/dns.c:543-565 | The generator of low..high, for every length up to 2^31 |
| Permutor.Permutor.Encrypt | seventh/dns.c:582-598 | The rounds in place compute E |
| Permutor.Permutor.Decrypt | seventh/dns.c:601-617 | The rounds in place, last to first, compute D |
| Permutor.Permutor.Step | seventh/dns.c:620-628 | One call in place returns the next kept output and leaves the 32-bit counter just past it |
| Permutor.Permutor.Run | seventh/dns.c:6401-6403 | Any number of consecutive calls |
| Resolver.StepInv | seventh/dns.c:7252-7774 | Every step, whatever its calls yield, keeps the stack discipline except exactly when rebuilding the query fails in a frame that relies on it |
| Resolver.StackMoves | seventh/dns.c:7252-7774 | A step moves at most one frame; a push leaves a waiting frame and a new frame with a query; a pop leaves an answer in the frame left behind and the waiting frame as it was; frames below do not change |
| Resolver.LossReported | seventh/dns.c:7425-7431 | The query is only ever lost by a step that reports an error |
| Resolver.RunInv | seventh/dns.c:7252-7774 | In every run over steps and calls that would block, up to the first other error, the discipline holds, and a run that ends without error ends in frame 0 with an answer |
| Resolver.StartInv | seventh/dns.c:7857-7869 | A resolver just given a question is in order |
| ResolverExec.Res.constructor | seventh/dns.c:7857-7869 | A resolver just given a question, in place |
| ResolverExec.Res.Exec | seventh/dns.c:7252-7774 | One dispatch in place: from a machine in order it computes the specified step without ever following an unset packet pointer, and keeps the machine in order unless the query is lost |
| ResolverLaws.QueryLaw | seventh/dns.c:7559-7606 | In every run, an answer that is no refusal leads to FINISH when it has the wanted record, whatever else it holds; to following the alias when it has only one; and with neither to the next candidate name, the answer put aside, unless recursion is on, else to the servers it refers to, to FINISH when it is authoritative, or to the next address |
| ResolverLaws.AskingLaw | seventh/dns.c:7536-7557 | Asking for too long leads to the next address; a call that would block changes nothing, and other failures end the run |
| ResolverLaws.RefusedLaw | seventh/dns.c:7547-7557 | A server that refuses an extended query is asked again with a plain one |
| ResolverLaws.AnswerEnds | seventh/dns.c:7569-7573 | Over three steps: an answer with the wanted record ends the run with that answer in frame 0 without smart, and in any other frame hands it to the frame that waits |
| ResolverLaws.AliasLaw | seventh/dns.c:7607-7618 | Following an alias takes a new frame while there is one, and otherwise the alias is the answer |
| ResolverLaws.AliasFollowed | seventh/dns.c:7575-7618 | Over two steps: an answer with only an alias starts a new frame for the name it stands for while the frame waits, or finishes with it when all eight are in use |
| ResolverLaws.MergeLaw | seventh/dns.c:7619-7625 | Back from an alias, the frame finishes with the answers merged |
| ResolverLaws.GlueLaw | seventh/dns.c:7272-7296 | What the answers so far know: the wanted record finishes the frame, an alias alone is followed, anything else leads on to the lookup order, and frame 0 goes there at once |
| ResolverLaws.GlueEnds | seventh/dns.c:7270-7296 | Over four steps: a new frame whose name the answers so far resolve goes straight back to the frame that waits |
| ResolverLaws.SwitchLaw | seventh/dns.c:7298-7313 | The next source is the first in the lookup order not taken yet among b for the servers, f for the hosts file and c for a cache that is there, in either case of the letter |
| ResolverLaws.SwitchEnds | seventh/dns.c:7334-7341 | When none is left, frame 0 takes the answer put aside, if any, and otherwise the answer is a failure |
| ResolverLaws.ServfailLaw | seventh/dns.c:7742-7752 | The failure made up is the answer |
| ResolverLaws.FileLaw | seventh/dns.c:7342-7368 | A hosts file that knows the name finishes the frame, in frame 0 under any candidate name; otherwise the next source is tried |
| ResolverLaws.CacheLaw | seventh/dns.c:7369-7385 | A cached answer with records finishes the frame, one without leads to the next source, and none to asking the cache |
| ResolverLaws.WaitLaw | seventh/dns.c:7386-7395 | Handing the query over and waiting may block, which changes nothing |
| ResolverLaws.FetchLaw | seventh/dns.c:7396-7409 | What the cache then has finishes the frame if it holds records; otherwise the next source is tried |
| ResolverLaws.BindLaw | seventh/dns.c:7410-7420 | The name servers: frame 0 goes through the candidate names, other frames keep their query and must have one |
| ResolverLaws.SearchLaw | seventh/dns.c:7421-7432 | The next candidate name becomes the query; after the last one the next source is tried |
| ResolverLaws.HintsLaw | seventh/dns.c:7433-7437 | The servers to begin with come from the hints |
| ResolverLaws.IterateLaw | seventh/dns.c:7438-7446 | The list of servers is gone through from its start |
| ResolverLaws.ServerLaw | seventh/dns.c:7447-7461 | The next server's addresses are looked at; after the last server the list is gone through again while there are attempts left, and then the next source is tried |
| ResolverLaws.AddressLaw | seventh/dns.c:7491-7535 | The query goes to the server's next address; a server without any is resolved first, and one whose addresses are used up is passed over |
| ResolverLaws.ResolveLaw | seventh/dns.c:7462-7474 | Resolving a server takes a new frame while there is one, and otherwise the server is passed over |
| ResolverLaws.ResolvedLaw | seventh/dns.c:7475-7490 | Back from there, the next server is taken |
| ResolverLaws.FinishLaw | seventh/dns.c:7626-7638 | A frame that finishes must have an answer; with smart, frame 0 goes on to the hosts it names |
| ResolverLaws.SmartLaw | seventh/dns.c:7639-7708 | Each host the answer names gets a frame of its own; a mail exchange query without any falls back to the name itself, once |
| ResolverLaws.SmartBackLaw | seventh/dns.c:7709-7733 | Back from there, the next host is taken, if there was an answer |
| ResolverLaws.DoneLaw | seventh/dns.c:7734-7741 | A frame that is done hands its answer to the frame below, and frame 0 ends the run |
| ResolverLaws.AttemptsBounded | seventh/dns.c:7438-7461 | With no server to ask each time, the list is gone through exactly as many times as there are attempts left, and then the next source is tried |
| ResolverLaws.FromHosts | seventh/dns.c:7252-7774 | From the start: with the hosts file first and a host it knows, six steps end the run with that answer |
| ResolverLaws.FromServer | seventh/dns.c:7252-7774 | From the start: with the servers first, a query that the first address of the first server answers ends the run with that answer after twelve steps |
| TcpRecv.Socket.NewAnswer | seventh/dns.c:6408-6418 | A buffer for the announced length, at least 768 bytes, from the moment the length is known |
| TcpRecv.FramedExact | seventh/dns.c:6548-6583 | The first message of a stream stands behind its length, two octets, the higher first |
| TcpRecv.Socket.TcpRecv | seventh/dns.c:6548-6583 | For every way of cutting the stream into reads, with stops in between: when a call reports completion the buffer holds exactly the first length-framed message and nothing after it was consumed; otherwise every read made progress, or all that was sent is consumed and no whole message was in it |
| Search.CountDots | seventh/dns.c:2126-2136 | The number of dots in a name |
| Search.CandidatesExact | seventh/dns.c:5403-5443 | The candidates by values: an anchored name alone; a name with at least as many dots as configured first as it stands and then under each of the first four suffixes up to an empty one; any other under those first and then as it stands; each with a dot at its end |
| Search.Unpacked | seventh/dns.c:5387-5398 | The three fields of the packed word come back as they were packed |
| Search.ScanYields | seventh/dns.c:5422-5438 | What the word yields between two stops is the head of the rest of the candidate list |
| Search.Next | seventh/dns.c:5403-5443 | From any word the generator can be left with, a call yields the next of the remaining candidates, and the new word stands for the rest |
| Search.Drive | seventh/dns.c:5403-5443 | Driven from 0, the k-th call yields the k-th candidate, and every call after the last one yields nothing |
| NssConf.CodesRound | seventh/dns.c:5075-5114 | Every source, status and action has a character that stands for it alone |
| NssConf.CodesAre | seventh/dns.c:5075-5114 | Which characters those are |
| NssConf.MeaningExact | seventh/dns.c:5281-5314 | On every outcome a source takes the action of the last criterion for it; without one a success ends the search, and everything else goes on to the next source |
| NssConf.CodesRead | seventh/dns.c:5281-5314 | Reading the pairs of one source applies exactly its criteria, the last one for a status winning, and stops at the next source |
| NssConf.LookupRoundTrip | seventh/dns.c:5135-5225 | Decoding what was written for any list of sources returns the kept ones in order, each with its actions and the stated defaults |
| NssConf.AllKept | seventh/dns.c:5135-5225 | Sources that are all known and take at most 35 octets, one each and two for each criterion, all come back, in order, each with its meaning |
| NssConf.EncodeFits | seventh/dns.c:5177-5178 | The string written always leaves room for its NUL in the 36-byte buffer |
| NssConf.Lookup.PutSource | seventh/dns.c:5180-5216 | One source and its criteria, in place |
| NssConf.Lookup.Load | seventh/dns.c:5152-5225 | One line of sources, in place: the buffer holds the specified string |
| NssConf.Lookup.Next | seventh/dns.c:5258-5321 | nssconf_next in place |
| Comparing.EachSelected | seventh/dns.c:2912-2947 | What a loop over the records of given sections and type goes through is what the iterator selects in packet order |
| Comparing.CopyGood | seventh/dns.c:2500-2515 | A record whose names are read to an end, and whose data parses, is copied as one that can be pushed, with its section |
| Comparing.EqualIsSame | seventh/dns.c:2655-2696 | Comparing two records by reading both from their packets is comparing the records: type, class, name as strcasecmp sees it, and data, where text and data of unknown types never compare equal |
| Comparing.EqualExact | seventh/dns.c:2655-2696 | Two records, each in its packet, compare equal if and only if type, class and name agree, both or neither is a question, and, but for questions, the four or sixteen bytes of an address are identical, the two bytes of a preference and the name of its host agree, or the name of a server, alias or pointer does; no other data ever agrees |
| Coincide.SameExact | seventh/dns.c:2655-2696 | For records as values: they compare equal if and only if type and class are equal, names are the same but for the case of letters and of at most 255 bytes, and the data is the same bytes, the same preference and host, or the same host |
| Coincide.ExistsCoincides | seventh/dns.c:1682-1686 | Looking through the new packet finds a record exactly when one of those stored there so coincides with it |
| Merge.ExistsHeld | seventh/dns.c:1682-1686 | Looking through the new packet, bytes and memo, finds an equal record exactly when one of the records that the pushes so far have stored is equal |
| Merge.DoExact | seventh/dns.c:1671-1699 | Copying record by record succeeds exactly when every record looked at can be copied and pushing the chosen ones on a fresh packet succeeds, and gives that packet |
| Merge.ChosenOrder | seventh/dns.c:1671-1699 | What is pushed is given by an increasing list of places in the plan: a place is on it if and only if its record is copied outright, or equals none of the records that the pushes before it have stored |
| Merge.MergeContents | seventh/dns.c:1653-1706 | On success the packet is what pushing the chosen records makes; those are, in order and once for every record read, section by section all masked records of A and then those of B that equal none stored before them; every masked record of B not pushed compares equal to a record read back from the packet |
| Coincide.MergeKeeps | seventh/dns.c:1653-1706 | A merged packet keeps what it was made from: every masked record of A was pushed, and every one of B was, or a record stored has the same type and class, its name, and for an address the identical bytes, for a mail exchange the same preference and host, for the others the same host |
| Coincide.MergeChooses | seventh/dns.c:1671-1699 | Conversely, a record of B is left out only, and always, when one stored before it coincides with it; a record of A never is |
| Merge.MergedListing | seventh/dns.c:1653-1706 | Listing the merged packet gives the chosen records, in order, if and only if every push of them was faithful |
| Merge.MergeFails | seventh/dns.c:1653-1706 | A merge fails only on a record that cannot be read or for lack of room, never over the order of sections |
| MergeGiven.AgreeExact | seventh/dns.c:1682-1686 | Comparing with the records given to the pushes, instead of those read back, would push the same ones if and only if no test of an offered record comes out differently |
| MergeGiven.GivenExact | seventh/dns.c:1682-1686 | The same for the plan of a merge; the useful case is the next row |
| MergeGiven.MergeAsGiven | seventh/dns.c:1653-1706 | When pushing the records chosen by the given ones succeeds and every push is faithful, the merge is exactly that |
| MergeHeld.CopyHeld | seventh/dns.c:2500-2515 | A record that a packet holds is copied as itself, but for a question's TTL and a clamped TTL, when the caller's buffers hold its name and data |
| MergeHeld.HeldMerge | seventh/dns.c:1653-1706 | Merging a packet that holds one list of records with a packet that holds another gives exactly the packet made by pushing the records chosen from the two lists, section by section, or runs out of room when those do not fit |
| MergeLoss.MergeLoses | seventh/dns.c:1682-1686 | A merge that loses a record: of the bytes of a packet with questions a.x, b.b and the servers of a.b, and of one with a question for the servers of b.b, any buffer from 40 bytes gets the first packet's questions alone, the third of them held as one for b.b |
| MergeLoss.OutcomeLoses | seventh/dns.c:1653-1706 | That is what merging the two packets returns, at the first attempt |
| MergeLoops.IsPresent | seventh/dns.c:1682-1686 | The loop over the new packet finds out whether a record listed there agrees with the one at hand, as the bytes of both say |
| MergeLoops.CopySection | seventh/dns.c:1672-1675 | The loop over A's records of a section |
| MergeLoops.AddSection | seventh/dns.c:1679-1690 | The loop over B's records of a section |
| MergeLoops.Attempt | seventh/dns.c:1671-1699 | The loop over the sections, QD, AN, NS and AR, with a buffer of a given size |
| MergeLoops.MergePackets | seventh/dns.c:1653-1706 | The merge of two packets, either of which may be missing: the first buffer size, doubling from the sum of both up to 65535, that does not run out of room |
| MergeLoops.SizeDoubles | seventh/dns.c:1660-1706 | Every further attempt has twice the room of the one before, but never more than 65535 octets |
| Link.StepInv | third/src/main/java/ru/nsu/ccfit/Reciever.java:44-67 | Every step of the sender, the receiver, the checking thread and a network that loses, repeats and reorders lines keeps the link invariant |
| Link.OrderedAndBounded | third/src/main/java/ru/nsu/ccfit/Reciever.java:49-58 | In every run the texts accepted are a prefix, in order and without repeats, of the texts numbered, and no line is sent more than four times |
| Link.FourTimes | third/src/main/java/ru/nsu/ccfit/Checker.java:35-71 | A line that is never confirmed is sent four times, and the round after that gives the receiver up |
| Link.NothingLost | third/src/main/java/ru/nsu/ccfit/Reciever.java:44-67 | When nothing is lost every line is accepted in order, confirmed, and forgotten after being sent once |
| Link.ConfirmsConserved | third/src/main/java/ru/nsu/ccfit/Reciever.java:50-66 | In every run confirms counted, in flight and lost are the lines the receiver has counted, plus one between its send and its count |
| Link.RetiredWasAccepted | third/src/main/java/ru/nsu/ccfit/Checker.java:50-64 | In every run a line dropped from the check queue because its number is confirmed was accepted by the peer |
| Link.QueueEmpties | third/src/main/java/ru/nsu/ccfit/Checker.java:35-71 | Without new lines the check queue is empty after finitely many rounds, whatever happens in between |
| Flood.OthersThrough | third/src/main/java/ru/nsu/ccfit/Server.java:53-73 | In the forest of neighbours, every neighbour but the one toward a line's origin reaches that origin through this node |
| Flood.StepInv | third/src/main/java/ru/nsu/ccfit/Sender.java:53-62 | Every step of any node, joins and removals included, keeps the flooding invariant, over links that deliver in order |
| Flood.AtMostOnce | third/src/main/java/ru/nsu/ccfit/Sender.java:53-62 | In every run over such links each node accepts each line at most once and never one of its own |
| Flood.NeverBack | third/src/main/java/ru/nsu/ccfit/Sender.java:54 | In every run over such links no line is put on a link in both directions |
| Delivery.TowardTree | third/src/main/java/ru/nsu/ccfit/Server.java:53-73 | Between any two nodes of a tree there is a next node on the way, in the same tree; with `Delivery.TowardCloser`, every step of the way comes closer |
| Delivery.TowardCloser | third/src/main/java/ru/nsu/ccfit/Server.java:53-73 | The next node on the way to another one is a neighbour, and closer to it |
| Delivery.Unseen | third/src/main/java/ru/nsu/ccfit/Sender.java:53-62 | In every state that flooding can be in nobody has seen a line that was not typed yet |
| Delivery.StepSpreads | third/src/main/java/ru/nsu/ccfit/Sender.java:53-62 | As long as nobody joins or is given up, every step keeps this: whoever has the line still has to pass it to, or has put it on the link to, every neighbour but the one it came from |
| Delivery.Reaches | third/src/main/java/ru/nsu/ccfit/Sender.java:53-62 | A line typed at a node has, once nothing is left to pass on or on a link, been accepted by every other node of its tree, if nobody joined or was given up in between |
| Network.StepSim | third/src/main/java/ru/nsu/ccfit/Reciever.java:44-67 | Every step over the lossy network, packets arriving late, again or never included, is at most one step of flooding over links that deliver in order |
| Network.RunSim | third/src/main/java/ru/nsu/ccfit/Sender.java:53-62 | The same for every run |
| Network.AtMostOnce | third/src/main/java/ru/nsu/ccfit/Reciever.java:44-60 | Over a network that loses, repeats and reorders packets, in every run each node accepts each line at most once and never one of its own |
| Network.NeverBack | third/src/main/java/ru/nsu/ccfit/Sender.java:54 | In every such run no line is numbered on a link in both directions: it is never sent back to the neighbour it came from |
| Network.InOrder | third/src/main/java/ru/nsu/ccfit/Reciever.java:49-58 | In every such run what a node accepted from a neighbour is, in order and without repeats, a prefix of what that neighbour numbered for it |
| Delivery.EverybodyGets | third/src/main/java/ru/nsu/ccfit/Sender.java:53-62 | Exactly once, over the lossy network: a line typed at a node in any run has, whenever later all is quiet, been accepted exactly once by every other node of its tree, unless somebody joined or was given up in between |
| Chat.DecimalRound | third/src/main/java/ru/nsu/ccfit/Sender.java:57 | Numbers written in decimal parse back |
| Chat.DecimalExact | third/src/main/java/ru/nsu/ccfit/Sender.java:57 | The last digit of a number is its remainder by ten, what stands before it is the number without that digit, and no number but 0 begins with a 0 |
| Chat.EncodeExact | third/src/main/java/ru/nsu/ccfit/Sender.java:57 | A numbered line is an M, the number in decimal, a colon and the text |
| Chat.LineRoundTrip | third/src/main/java/ru/nsu/ccfit/Reciever.java:48-52 | A numbered line reads back as its number and its text, colons in the text included |
| Chat.NodeInfo.constructor | third/src/main/java/ru/nsu/ccfit/Containers/NodeInfo.java:13-28 | A new neighbour expects number 1 and has sent and had confirmed nothing |
| Chat.NodeInfo.GetSendID | third/src/main/java/ru/nsu/ccfit/Containers/NodeInfo.java:46-49 | The next number |
| Chat.CheckTask.UpdateTask | third/src/main/java/ru/nsu/ccfit/Containers/CheckTask.java:38-41 | One more transmission |
| Chat.Storage.Put | third/src/main/java/ru/nsu/ccfit/Containers/Storage.java:19-24 | Appends at the end |
| Chat.Storage.Get | third/src/main/java/ru/nsu/ccfit/Containers/Storage.java:26-43 | Takes from the front, or nothing once the queue was shut down |
| Chat.Server.FindNode | third/src/main/java/ru/nsu/ccfit/Reciever.java:95-102 | The first neighbour with the address |
| Chat.Server.Receive | third/src/main/java/ru/nsu/ccfit/Reciever.java:33-87 | One packet: a line is queued, confirmed and counted exactly when it comes from a neighbour, is not dropped and carries the expected number; a confirm counts; a registration adds a neighbour; no other counter, queue or packet changes |
| Chat.Server.ReceiveRound | third/src/main/java/ru/nsu/ccfit/Reciever.java:44-60 | A message from a neighbour is one round of the receiver on its link: what the link accepts is queued, and a confirm goes out for it |
| Chat.Server.ConfirmRound | third/src/main/java/ru/nsu/ccfit/Reciever.java:61-66 | A confirm from a neighbour is counted on the link to it |
| Chat.Server.Flood | third/src/main/java/ru/nsu/ccfit/Sender.java:53-67 | Every neighbour but the one the line came from is sent it under its own next number, with a task to check on it; the others keep their counters |
| Chat.Server.FloodRound | third/src/main/java/ru/nsu/ccfit/Sender.java:53-62 | On the link to each neighbour that is the step of numbering the line, or no step for the one it came from |
| Chat.Server.CheckOne | third/src/main/java/ru/nsu/ccfit/Checker.java:35-71 | Gives up on the neighbour, sends again, or forgets the line, and leaves every other task alone |
| Chat.Server.CheckRound | third/src/main/java/ru/nsu/ccfit/Checker.java:50-64 | A round is a round of the checker on the link its entry belongs to, and leaves the entries of every other link alone |
| ChatRounds.ReceiveStep | third/src/main/java/ru/nsu/ccfit/Reciever.java:44-60 | For a node that stands in the whole chat, with its neighbours and its queue, a message is the arrival, the confirm and the count of module Network, and the node stands in the state after them |
| ChatRounds.RegisterStep | third/src/main/java/ru/nsu/ccfit/Reciever.java:67-73 | A registration is the joining of a node through this one |
| ChatRounds.ServesDo | third/src/main/java/ru/nsu/ccfit/Sender.java:53-62 | In module Network, serving the neighbours one after another numbers the line once on the link to each of them but the one it came from, and on no other link |
| ChatRounds.SendStep | third/src/main/java/ru/nsu/ccfit/Sender.java:47-67 | Passing on the next line is the node taking it from its queue and serving all its neighbours; the counters are the lines numbered on each link |
| ChatRounds.TypedSent | third/src/main/java/ru/nsu/ccfit/Sender.java:47-67 | A line typed at an idle node is, at the end, numbered on the link to every neighbour and on no other link of the node, and the node's queue is as it was |
| ChatRounds.CheckStep | third/src/main/java/ru/nsu/ccfit/Checker.java:35-71 | A round of the checker is the check on the link to the neighbour of its task, who is given up in the same cases |

## Left out

- NameWriting.DPush: requires text that spells a name with labels of 1 to 63 bytes without dots or NULs; for longer labels the source cuts the length byte to six bits, and for an empty text it searches whatever bytes stand at the end of the buffer.
- NameWriting.DComp: for the same texts only.
- NameReading.DExpand: requires a reading that ends, since the source loops for ever on the others.
- RecordPushing.PushRec: requires a well-formed dictionary, which every push keeps but the refused ones of `Failures.StraysExact`, and, for the owner name, a match that can bear one more pointer; `Depth.RecordBounded` and `Failures.FailedExact` show that all runs of pushes on a fresh packet meet this in which no push is so refused and at most 46 failed ones gave a slot away.
- Iteration.Grep: requires a memo that is what a study computes or was never filled in.
- MergeLoops.MergePackets: the new packet is a value that grows by pushes rather than a buffer written in place; the masked records of both packets have names that are read to an end, with labels without dots or NULs, and data of a modelled type.
- TcpRecv.Socket.TcpRecv: a peer that closes the stream and a failing allocation are left out; both return an error.
- Search.Next: the candidate is returned whole; truncation to a smaller buffer is left out, and the name has 1 to 255 bytes as the packed word demands.
- Chat.Server.Receive: a failing send or receive is left out; the text of a number is a string of digits without a sign, of any size.
- Link.QueueEmpties: the waiting time before a line is looked at again is left out.
- RecordData.AnyParseStored: SOA, SRV, SSHFP and OPT data are not parsed; of these only OPT data is pushed.
- SOA, SRV and SSHFP data, and what OPT records mean beyond their length.
- The loops of the record data parsers other than TXT; they call the name reader and copy bytes.
- The third record order, by section, type and content: it is not transitive over records of different types.
- The encryption behind the permutor's round function, and the random numbers that key it and seed the shuffle.
- The scratch arrays of the permutor are two scalars, and the dictionary positions are unbounded numbers; packets have at most 65535 bytes, so no offset wraps.
- Sockets, clocks, retransmission of queries, the hosts and resolv.conf files, printing, address lookup, and memory that cannot be allocated.
- Whether recursive resolution ends: referral chains are bounded only by the servers.
- What packets the resolver's frames hold; the machine records whether each pointer is set.
- The handshake of a joining chat node is one step, no registration or confirm is repeated by the network, no address registers twice, and sends do not fail.
- Blocking and waking up of the chat's threads, their start and stop, and the 256-byte limit of a datagram.
- The relay in `seventh/proxy.c`, the socket helpers, and the programs under `first/`, `second/`, `fourth/` and `fifth/`.
