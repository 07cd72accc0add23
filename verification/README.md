# Verified model of the EmerGen-Z IVSHMSG driver

The EmerGen-Z kernel modules let virtual machines exchange messages through a shared memory region that
QEMU's ivshmem device offers to all of them. Every node owns one *mailslot* in that region. A sender waits
until the `buflen` word of its own slot is zero, fills the slot and rings a doorbell at the receiver. The
receiver's interrupt handler finds out who rang. It answers link-level requests by itself and points
`incoming_slot` at the sender's slot for everything else. `read()` copies such a message to the user and
releases it, which clears the sender's `buflen`.

This project models that protocol, the text layer above it, the byte layout below it, and the smaller state
machines around it, and proves what they keep over every run.

## How it is organised

| module | content |
|---|---|
| `Basics`, `CText` | options and errno values, sums over node tables; C strings, decimal printing, `sscanf`, `kstrtoint` |
| `LinkMessages` | link requests: how they are recognised in a slot, the replies, the Core Structure fields |
| `Mailbox` | the protocol as a transition system over any number of nodes |
| `MailboxOwnership`, `MailboxHistory`, `MailboxReading`, `MailboxReplies`, `MailboxReleases` | the parts of the invariant, each kept by every step |
| `MailboxRuns` | the theorems over all runs |
| `AtomicMailbox`, `MailboxRefinement` | a mailbox with atomic sends and reads, and the proof that the protocol refines it |
| `MailboxTermination` | a measure that every step but a new user send decreases; what holds at rest |
| `MailboxCore`, `MailboxCoreOrder`, `MailboxAcks` | what replies report while handlers, of one node or of several adapters of a host, overlap on a Core Structure |
| `MailboxSolo`, `MailboxSoloReading`, `MailboxSoloLink`, `MailboxAckRuns` | closed forms of whole operations, step by step; runs in which things go wrong |
| `FlatMemory`, `Addressing`, `Driver` | the region as bytes, the `CID,SID:body` text, and the C functions as methods over an array |
| `DriverRuns` | each of those methods is a run of the protocol |
| `ExclusiveOpen`, `Interrupts`, `MinorNumbers`, `BusRegistry` | exclusive open, IRQ acquisition, device numbers, the bus list |

A state of the protocol has a physical part, which the steps test and change, and a history of accepted
messages, which they only record. Steps of their own are: a sender's last look at `buflen` and each store of a
send (`buflen`, NUL, `last_responder`, every byte of the body, doorbell); each byte of a read; both stores of
release; each of the five stores of a CTL-Write into the Core Structure and each of the two loads of an ACK.
Coarser are three things that happen in a slot which nobody else can write at that time: a handler's stamp (two
stores), its look at the buffer together with the store that follows from it, and the two loads for a read's
header. All steps interleave with those of all other nodes and of other handlers of the same node.

Assumptions of the protocol model:

- memory is sequentially consistent;
- the sends of one adapter are serialised (`wbuf_mutex` does this for user writers only, shim_bridge/gf_bridge.c:219);
- each node has one reader, and every interrupt comes from one doorbell;
- nodes use Core Structures in any assignment: adapters of one host share one (shim_bridge/fee_register.c:42-62), and one per node is a special case;
- no adapter is created again in the middle of a run, and `core` is bound before link traffic (shim_bridge/fee_register.c:62);
- `server_id == nClients + 1` and `nEvents == nClients + 2`, ids fit 16 bits, each slot's `peer_id` is its own
  number, and the server behaves as one more peer;
- the kernel hands out positive majors, and clock ticks are milliseconds.

One thing is looser in the protocol model than in the driver, so that its theorems cover more than the driver's
runs: a further interrupt of one sender may be taken while the handler of an earlier one is still at work.

## What the code does, where that surprises

- An overwritten `incoming_slot` costs its sender the handshake for good (`MailboxRuns.OverwrittenIsStuck`; `MailboxSolo.OverwriteHappens` is such a run).
- Release clears the slot that `incoming_slot` names at that moment. That is the slot that was read exactly when its message has not been overwritten meanwhile (`MailboxRuns.ReleaseFreesItsOwn`). Otherwise a message is released that nobody has read (`MailboxSoloReading.StrayReleaseHappens`), one for each overwritten message that was read (`MailboxRuns.StrayReleases`; a read that fails with E2BIG or EFAULT counts as a read there, since it releases too). Reads are untorn nevertheless (`MailboxRuns.UntornDelivery`).
- The guard of `read()` lets one byte too many through (`MailboxRuns.ReadsOverrunByOne`; `MailboxSoloReading.OverrunHappens` is such a run).
- Handlers work on the Core Structure after they have dropped the lock, so an ACK can pair the CID of one CTL-Write with the SID of another (`MailboxAckRuns.TornAckHappens`), and two overlapping CTL-Writes can leave the core mixed for good (`MailboxAckRuns.CoreStaysMixed`). Adapters of one host share a core, so an ACK can report a pair that only another node was sent (`MailboxAckRuns.SharedCoreReports`). `MailboxAcks.AckIsWholeExactly` says for every run when an ACK reports one pair, by the order of the stores; `MailboxAcks.AckIsWholeIff` says it as a count, in runs where CTL-Writes do not overtake each other. That a handler is between its two stores at a load is neither necessary for a torn ACK (`CoreStaysMixed`) nor sufficient (`MailboxAckRuns.MidwayYetWhole`).
- The search for a minor number stops at 14, although the comment beside the constant speaks of 16k components (subsystem/genz_device.c:40, 243).
- Flush lowers the user count before release frees the buffers, and only if it sees a file count of 1; release itself is not atomic. A thread that opens before release looks at the count (`ExclusiveOpen.ReleaseCanTripBugOn`), or a descriptor shared by fork and closed twice at once (`ExclusiveOpen.SharedCloseTripsBugOn`), makes release trip its `BUG_ON`. A thread that opens between that look and the final store of NULL loses its buffers (`ExclusiveOpen.OpenDuringReleaseFaults`). `ExclusiveOpen.CleanIffAlone` says exactly when nothing of the kind happens.
- A header written back is refused when the peer's CID, 100 times its id, does not fit an int (`Addressing.AddressRoundTrip`).

## Model

| member | source | states |
|---|---|---|
| MailboxRuns.SingleOwnership | shim_bridge/fee_IVSHMSG.c:77-149 | in every reachable state a sender's message has at most one holder among doorbells, handlers and pointers, a slot that is free or being filled has none, and two doorbells of one sender are never pending together |
| MailboxRuns.Conservation | shim_bridge/fee_MSI-X.c:39-76 | every accepted message is in exactly one place: doorbell, handler, pointer, consumed, released, overwritten |
| MailboxRuns.NothingIsLostTrack | shim_bridge/fee_MSI-X.c:39-76 | the number of accepted messages is the sum of those still in the system, consumed, released and overwritten |
| MailboxRuns.UntornDelivery | shim_bridge/gf_bridge.c:170-198 | every successful read returned its sender's header and exactly the bytes of one accepted message addressed to that reader, with that length, whatever was overwritten meanwhile |
| MailboxRuns.OnceAndInOrder | shim_bridge/gf_bridge.c:170-198 | no message is read twice, and a reader gets each sender's messages in sending order |
| MailboxRuns.OnlyOwnersWrite | shim_bridge/fee_IVSHMSG.c:99-149 | a step that changes a slot is its sender's own publishing, the handler that has its message, or a release through a pointer to it |
| MailboxRuns.ReleaseHasItsPointer | shim_bridge/fee_IVSHMSG.c:143-149 | release never follows a NULL pointer, although it does not look |
| MailboxRuns.ReleaseFreesItsOwn | shim_bridge/fee_IVSHMSG.c:143-149 | at every release, incoming_slot names the slot that was read, and release frees the message that was read, if and only if that message has not been overwritten |
| MailboxRuns.StrayReleases | shim_bridge/fee_IVSHMSG.c:146 | once no read is going on, the messages released but never read are as many as those overwritten but read |
| MailboxRuns.ReadsOverrunByOne | shim_bridge/gf_bridge.c:180-192 | over all runs, a read fails with E2BIG exactly when header and message exceed the buffer by more than one byte; a delivered read overruns the buffer exactly when it is one byte short |
| MailboxRuns.OverwrittenIsStuck | shim_bridge/fee_MSI-X.c:71-73 | once a message has been overwritten, its sender's slot never changes again in any continuation, and no send of that sender passes the busy test |
| MailboxRuns.BusyHasHolder | shim_bridge/fee_IVSHMSG.c:94-98 | a busy slot that is not being filled has a holder exactly when its message has not been overwritten |
| MailboxRuns.RepliesNeverOutnumber | shim_bridge/fee_link.c:55-101 | over any run, automatic replies are at most as many as the other messages |
| MailboxRuns.StepKeepsInv | shim_bridge/fee_IVSHMSG.c:73-149 | every step of every node keeps the whole invariant: ownership, history, slot contents, readers, reply accounting |
| MailboxHistory.SeenIsSent | shim_bridge/fee_link.c:55-84 | a slot that holds a message shows its handler exactly the request in that message |
| MailboxReplies.StepKeepsSettled | shim_bridge/fee_link.c:55-99 | consumed requests always equal replies owed, dropped and sent |
| MailboxReleases.StepKeepsBalanced | shim_bridge/gf_bridge.c:197-199 | releases always equal completed reads plus those between the two stores of release |
| MailboxRefinement.RefinesAtomicMailbox | shim_bridge/fee_IVSHMSG.c:101-110 | every run, with the stores of all nodes interleaved, shows the same boxes, pointers and returned reads as the run of the atomic mailbox in which a send happens at its doorbell and a read at its last byte |
| MailboxRefinement.StepRefines | shim_bridge/fee_IVSHMSG.c:101-149 | each step is the atomic act that it stands for, or changes nothing that the atomic mailbox can see |
| MailboxTermination.StepDecreases | shim_bridge/fee_link.c:55-101 | every step but a new user send decreases the measure |
| MailboxTermination.CascadesTerminate | shim_bridge/fee_link.c:55-101 | from any reachable state a run without new user sends has at most as many steps as the measure says, in any order |
| MailboxTermination.ComesToRest | shim_bridge/fee_MSI-X.c:39-76 | from any state that satisfies the invariant there is a run without user sends to a state where nothing is enabled but new user sends |
| MailboxTermination.EveryMessageIsDealtWith | shim_bridge/fee_IVSHMSG.c:143-149 | at rest every accepted message has been consumed, released or overwritten, and a slot is busy exactly when its sender's last message was overwritten |
| MailboxAcks.StepKeepsTracked | shim_bridge/fee_link.c:55-101 | every step keeps every core equal to what the CTL-Writes to any of its nodes stored last, and every reply in the making right as far as it has got |
| MailboxAcks.RepliesAnswer | shim_bridge/fee_link.c:55-101 | over all runs, every reply answers a request that its receiver had sent to its sender: the word pong for a ping, its own tag in the standalone sentence for a CTL-Write, and for a Peer-Attribute a text that names the class first and from which reading the numbers after CID0= and SID0= gives back CID0 of the node's core as of the CID load and SID0 as of the SID load, in this order |
| MailboxAcks.AcksReport | shim_bridge/fee_link.c:67-80 | over all runs, overlaps and ways to share cores, the number after CID0= in an ACK is the CID of the last CTL-Write to any node on its core that stored CID0 before its CID load, and the number after SID0= the SID of the last that stored SID0 before its SID load; if those are one CTL-Write, exactly its pair |
| MailboxAcks.AckIsWholeExactly | shim_bridge/fee_link.c:67-98 | in every run, an ACK reports one pair if and only if the CTL-Write that stored CID0 last before the CID load stored SID0 last before the SID load, or nothing had been stored before either |
| MailboxAcks.AckIsWholeIff | shim_bridge/fee_link.c:67-98 | in every run in which the handlers on a core store SID0 in the order in which they stored CID0, an ACK reports the pair of one CTL-Write if and only if the SID0 stores between its loads are as many as the handlers, of all nodes on the core, between their two stores at its CID load |
| MailboxAcks.OneAtATimeStaysInStep | shim_bridge/fee_link.c:86-91 | when no two CTL-Write handlers, of whichever nodes, are between their CID0 and SID0 stores on a core at once, they store both in the same order |
| MailboxAckRuns.TornAckHappens | shim_bridge/fee_link.c:83-98 | for any CTL-Write there is a run whose ACK reports its CID with the SID from before |
| MailboxAckRuns.MidwayYetWhole | shim_bridge/fee_link.c:70-98 | a run whose ACK loads CID0 while a CTL-Write is half done and still reports its pair |
| MailboxAckRuns.CoreStaysMixed | shim_bridge/fee_link.c:86-91 | for any two CTL-Writes there is a run after which both are done and the core holds the CID of one and the SID of the other |
| MailboxAckRuns.SharedCoreReports | shim_bridge/fee_register.c:42-62 | for any CTL-Write there is a run in which it is sent to one of two nodes that share a core, and the ACK of the other reports its pair |
| MailboxSolo.SendInARow | shim_bridge/fee_IVSHMSG.c:94-110 | exactly the steps last look, three stores, one store per byte, doorbell, by that sender, lead to the closed form: the whole message, NUL-terminated, stale bytes kept beyond it, one doorbell |
| MailboxSolo.DeliverInARow | shim_bridge/fee_MSI-X.c:39-74 | exactly the steps take, stamp, post of that handler lead to the closed form: stamped, pointed at, the message that incoming_slot named before overwritten |
| MailboxSolo.OverwriteHappens | shim_bridge/fee_MSI-X.c:71-73 | with three nodes there is a run that overwrites a message |
| MailboxSoloReading.ReadInARow | shim_bridge/gf_bridge.c:170-199 | for every buffer size and fault, exactly the steps of that read, one per byte, and of its release lead to the closed form: result recorded, slot free, incoming_slot cleared |
| MailboxSoloReading.OverrunHappens | shim_bridge/gf_bridge.c:180 | a run in which a read delivers one byte more than its buffer holds |
| MailboxSoloReading.StrayReleaseHappens | shim_bridge/fee_IVSHMSG.c:146 | a run in which a read delivers its message and its release frees another one, which nobody has read |
| MailboxSoloLink.ConsumeInARow | shim_bridge/fee_link.c:50-86 | exactly the steps take, stamp, consume, unlock of that handler lead to the closed form: slot stamped and free, one reply owed |
| MailboxSoloLink.AnswerInARow | shim_bridge/fee_link.c:50-98 | exactly those steps and the handler's loads and stores on the core lead to the core and the reply text that the request asks for |
| LinkMessages.StaleBytesNeverMatter | shim_bridge/fee_link.c:55-84 | whatever follows the terminating NUL in a slot, what the handler recognises depends on the sent message alone |
| LinkMessages.TheNulIsNeeded | shim_bridge/fee_IVSHMSG.c:102 | without the NUL, stale bytes could turn a message into a request |
| LinkMessages.RepliesAreNotRequests | shim_bridge/fee_link.c:29-39 | no automatic reply is a link request, and every reply fits the 128-byte buffer |
| LinkMessages.RequestsAreValid | shim_bridge/fee_link.c:55-98 | whatever bytes a slot holds, the numbers taken from it are 32-bit ints, a valid core stays valid, and the answer is a reply |
| LinkMessages.RequestsByText | shim_bridge/fee_link.c:55-68 | exactly the message ping is a ping, and exactly the messages that begin with the Peer-Attribute text are Peer-Attribute requests |
| LinkMessages.CtlWriteRoundTrip | shim_bridge/fee_link.c:35-36 | a text printed from the CTL-Write format with 32-bit values is recognised and its five numbers come back |
| LinkMessages.AckReadsBack | shim_bridge/fee_link.c:32-33 | a peer that scans an ACK gets CID0 after the name CID0 and SID0 after the name SID0, for any two 32-bit numbers |
| LinkMessages.TagReadsBack | shim_bridge/fee_link.c:38-39 | from the answer to a CTL-Write its peer reads back the tag that it had sent |
| LinkMessages.CtlWriteByText | shim_bridge/fee_link.c:35-36 | the CTL-Write sentence written out, with any five 32-bit numbers behind PFMCID, PFMSID, CID, SID and Tag, is recognised, and each number arrives under its own name |
| CText.ScanUndoesPrint | shim_bridge/fee_link.c:83-84 | for every delimited format and any integers, sscanf gives back what sprintf was given, as 32-bit ints |
| CText.KStrToIntOfDec | shim_bridge/gf_bridge.c:250-256 | a positive number in decimal reads back exactly when it fits an int, and gives ERANGE otherwise |
| CText.KStrToIntOfDecInt | shim_bridge/gf_bridge.c:250-256 | every 32-bit int printed in decimal, negative or not, reads back, also with a newline behind it |
| Addressing.AddressRoundTrip | shim_bridge/gf_bridge.c:228-258 | the header that read prints for a peer, followed by any bytes, parses to that peer and those bytes if and only if 100 times the id fits an int |
| Addressing.NameReachesServer | shim_bridge/gf_bridge.c:242-244 | the four names send any body to the server, whatever its id |
| Addressing.IdReachesPeer | shim_bridge/gf_bridge.c:254-257 | a bare number is a peer id: the body goes to that peer, for every positive int |
| Addressing.PairReachesBoth | shim_bridge/gf_bridge.c:246-253 | any two 32-bit numbers with a comma between them are taken as CID and SID, in this order, with every byte after the colon as the body |
| Addressing.NoColonIsBad | shim_bridge/gf_bridge.c:230-233 | EBADMSG exactly when no colon comes before the first NUL |
| Addressing.NoNumberIsInvalid | shim_bridge/gf_bridge.c:250-256 | an address that is no name, has no comma and begins with neither digit nor sign gives EINVAL |
| Addressing.HeaderFits | shim_bridge/gf_bridge.c:177-178 | for any 64-bit CID the header has at most 24 characters |
| Addressing.PeerOf | shim_bridge/fee_IVSHMSG.c:56 | the peer of an address is its CID when the SID says so, and otherwise a hundredth of it, truncated towards zero and stored without sign |
| FlatMemory.PutWord | shim_bridge/fee.h:67-77 | storing a field changes that field of that slot and no byte but its eight |
| FlatMemory.LittleEndian | shim_bridge/fee.h:67-77 | the eight bytes of a field, lowest first |
| FlatMemory.ConfinedToSlot | shim_bridge/fee_adapter.c:36-43 | a change inside one slot leaves the bytes of every other slot, the globals included |
| FlatMemory.StoreBytes | shim_bridge/fee_IVSHMSG.c:104 | the copying loop stores exactly these bytes there and nothing elsewhere |
| Driver.SendMem | shim_bridge/fee_IVSHMSG.c:101-104 | the four stores of a send, on bytes, make the published slot (length, receiver, body, NUL, everything else as before) and stay inside it |
| Driver.SendIsConfined | shim_bridge/fee_IVSHMSG.c:66-104 | from its last look at buflen on, a send changes no byte of the region outside its own slot |
| Driver.TakingIsConfined | shim_bridge/fee_link.c:51-57 | a handler changes no byte but those of buflen, peer_SID and peer_CID of the sender's slot, to 0 for a request, 27, and 100 times the peer id |
| Driver.InterruptIsConfined | shim_bridge/fee_link.c:51-64 | byte by byte: of the whole region a handler itself changes only buflen, peer_SID and peer_CID of the sender's slot and, for the reply, its own slot; with its own slot free nothing else changes from beginning to end |
| Driver.MailslotOf | shim_bridge/fee_adapter.c:36-43 | a slot number has a mailslot exactly when it is 1..server_id, and it is that one |
| Driver.ArgError | shim_bridge/fee_IVSHMSG.c:62-71 | for each error of a send the exact condition, in their order: ENETUNREACH, EBADSLT, E2BIG, ENODATA |
| Driver.PoliteMeansOdd | shim_bridge/fee_IVSHMSG.c:76-85 | the delays between polls are 1, 3, 5, 7, 9 and then always 11 ms, so odd, and at most 458 of them |
| Driver.Adapter.AwaitFree | shim_bridge/fee_IVSHMSG.c:76-85 | gives up only after the full five seconds of a busy slot and at least one poll; sleeps with the stated delays, at most 458 times, and only after a look that found the slot busy; whatever the other nodes do meanwhile, of the own slot only the stamp changes and buflen becomes 0; a free slot is found at once |
| Driver.Adapter.Publish | shim_bridge/fee_IVSHMSG.c:101-110 | the stores and the doorbell of a send |
| Driver.Adapter.CreateOutgoing | shim_bridge/fee_IVSHMSG.c:42-112 | every argument error in its order, with nothing stored; otherwise, after whatever the others did meanwhile, one message and one doorbell, or ERESTARTSYS after at least five seconds of polling with nothing stored and the slot still busy; a free slot always succeeds at once |
| Driver.Adapter.TakeMessage | shim_bridge/fee_link.c:50-57 | stamps the slot with its peer id, recognises the message, and clears the slot of a request |
| Driver.Adapter.LinkRequest | shim_bridge/fee_link.c:44-102 | the slot is stamped; a request is taken, the core updated and the reply sent to the peer in the slot or dropped after five busy seconds, anything else left alone |
| Driver.Adapter.AllMsix | shim_bridge/fee_MSI-X.c:32-81 | an unmatched vector changes nothing; a matched one has the effect of the link layer, or sets incoming_slot and reports whether it replaced one; a reply is dropped only after five busy seconds |
| Driver.Adapter.AwaitIncoming | shim_bridge/fee_IVSHMSG.c:120-138 | the slot that incoming_slot names; if it names none, EAGAIN at once with O_NONBLOCK, otherwise ERESTARTSYS for an interrupted wait and the slot that the wait brings for any other |
| Driver.Adapter.ReleaseIncoming | shim_bridge/fee_IVSHMSG.c:143-149 | clears the buflen of the slot that incoming_slot names now, then incoming_slot |
| Driver.Adapter.CopyOut | shim_bridge/gf_bridge.c:175-193 | header and exactly the slot's bytes, or E2BIG, or EFAULT |
| Driver.Adapter.Read | shim_bridge/gf_bridge.c:159-200 | EAGAIN with O_NONBLOCK and ERESTARTSYS for an interrupted wait, both with nothing copied or changed; otherwise, for the slot that incoming_slot named or the wait brought, header and exactly its bytes, or E2BIG, or EFAULT, and the slot that incoming_slot names in the end is released, even if a handler has replaced it meanwhile |
| Driver.Adapter.SendWithRestarts | shim_bridge/gf_bridge.c:265-271 | at most three attempts, of which at most one publishes; ERESTARTSYS only after three attempts, each of which polled, and fifteen seconds |
| Driver.Adapter.Write | shim_bridge/gf_bridge.c:206-280 | the full length exactly when one message was published to the peer that the text names, an error with nothing published otherwise; ETIMEDOUT only after three attempts, each of which polled, and fifteen seconds in which the slot was busy at the first look and at the last; every sleep follows a look that found the slot busy |
| Driver.MatchVector | shim_bridge/fee_MSI-X.c:44-52 | the first entry from 1 on with this vector, or the table's length |
| Driver.SenderRecovery | shim_bridge/fee_IVSHMSG.c:108-110 | with distinct vectors, the doorbell value splits into peer and sender, the search finds exactly that sender, and it has a mailslot |
| Driver.AnswerReachesSender | shim_bridge/gf_bridge.c:215-258 | writing back a read header with any non-empty body that fits passes every check of write and names exactly that peer and body |
| Driver.CreateSlot | shim_bridge/fee_adapter.c:154-184 | refused without a store exactly when a layout check fails; otherwise the slot is wiped, free, keeps its id, and carries the node name and the class |
| DriverRuns.SendIsRun | shim_bridge/fee_IVSHMSG.c:42-112 | whatever the send method does, however long it waits and whatever the other nodes do meanwhile, is a run of the protocol with the same memory, doorbell and accepted message |
| DriverRuns.InterruptIsRun | shim_bridge/fee_MSI-X.c:32-81 | whatever the interrupt method does, including the wait for its reply, is a run of the protocol with the same memory, core, reply and incoming_slot |
| DriverRuns.ReadIsRun | shim_bridge/gf_bridge.c:159-200 | whatever the read method does is a run of the protocol: the empty one if its wait ends in an error; otherwise one that records the returned data or error, after whatever the other nodes do during the wait, and even if they replace incoming_slot before the release |
| ExclusiveOpen.OpenIsExclusive | shim_bridge/gf_bridge.c:80-124 | for any interleaving of any number of openers, nr_users counts the files between increment and decrement, and at most one of them is open |
| ExclusiveOpen.ReleaseCanTripBugOn | shim_bridge/gf_bridge.c:121-146 | a run of two openers in which release trips BUG_ON |
| ExclusiveOpen.SharedCloseTripsBugOn | shim_bridge/gf_bridge.c:121-146 | a run of a single opener whose descriptor is shared and closed twice at once, in which release trips BUG_ON |
| ExclusiveOpen.OpenDuringReleaseFaults | shim_bridge/gf_bridge.c:138-149 | a run in which one opens between the other release's look at nr_users and its store of NULL, and its own release then follows a NULL pointer |
| ExclusiveOpen.CleanIffAlone | shim_bridge/gf_bridge.c:121-149 | in any run with shared descriptors, calls in progress and releases taken load by load and store by store, every release loads, frees and unlinks its own buffers and trips nothing, and every write finds its own, if and only if, for each release, nothing is opened since its file was, from its load of outgoing to its store of NULL, and at its look at nr_users the last flush had seen a file count of 1 and no other file was between increment and decrement |
| Interrupts.Irqs.Setup | shim_bridge/fee_MSI-X.c:87-184 | returns the first error; on any error no IRQ stays requested, no vectors stay allocated and no table stays attached; on success exactly the table's IRQs are requested |
| Interrupts.FirstError | shim_bridge/fee_MSI-X.c:95-166 | 0 exactly when there are enough vectors, the table fits, and every IRQ number and every request is good; otherwise the first of those errors in the order in which setup meets them, with its number |
| Interrupts.Irqs.RequestAll | shim_bridge/fee_MSI-X.c:154-175 | a refused IRQ frees exactly those requested before it |
| Interrupts.Irqs.Teardown | shim_bridge/fee_MSI-X.c:190-204 | frees each IRQ of the table once, and nothing the second time |
| Interrupts.Irqs.SetupThenTeardowns | shim_bridge/fee_MSI-X.c:87-204 | a successful setup and any positive number of teardowns free each requested IRQ exactly once |
| MinorNumbers.Registry.FirstZeroBit | subsystem/genz_device.c:243 | the number of minors gone, capped at 14 |
| MinorNumbers.Registry.Register | subsystem/genz_device.c:242-268 | the errors in their order; a registration that passes the checks takes the lowest free of 14 minors, under the major of the first one; a reserved minor stays gone even when the registration fails later; the number given was never given before |
| MinorNumbers.Registry.Run | subsystem/genz_device.c:242-377 | over any registrations and unregistrations the set bits are a prefix of at most 14, the major never changes once set, and no number is given twice |
| BusRegistry.Registry.Find | subsystem/genz_bus.c:190-240 | nothing exactly for slots above 254 or when the bus is neither on the list nor can be made; a bus that is on the list is returned and the list unchanged; otherwise one new bus with that id, 255 for every negative slot, is appended and returned |
| BusRegistry.Registry.FindAll | subsystem/genz_bus.c:190-240 | over any sequence of calls the list only grows, every call that can succeed does and returns the bus on the list with its id, and the answers are those of a map from normalised slots |
| BusRegistry.SameBusIffSameSlot | subsystem/genz_bus.c:194-213 | two successful lookups return the same bus exactly when their normalised slots agree |

## Left out

- netlink/*: socket clients with no protocol logic.
- shim_bridge/fee_pci.c: probe and remove are mostly PCI calls; the list of adapters is not modelled.
- shim_bridge/fee_register.c: list loops around foreign registration calls; only "core is bound" is used, as an assumption.
- BAR mapping, sysfs, kobject and cdev creation, `gf_bridge_poll`, the print macros and the `longest` statistic: foreign calls or diagnostics.
- subsystem/genz_class.c tables, the routing structures and the bus stubs: constant data or placeholders.
- Weak memory ordering, deadlock between spinlock and interrupt, and driver reload during traffic: outside the assumptions.
- sscanf, sprintf, kstrtoint and strncmp: written from the kernel's documented behaviour, since the kernel is not part of the repository. Field widths and other conversions that the driver does not use are absent.
- gf_bridge_flush: its look at the file count and its decrement are one step; only the closing descriptor holds a reference then, so nothing can come in between that the decrement would notice.
- gf_bridge_open, gf_bridge_release and gf_bridge_write in `ExclusiveOpen`: the allocation of the buffers and the store of their address are one step, so are the two frees, and so are a write's load of that address and its first use.
- MailboxAcks.AckIsWholeIff: its count is for cores whose CTL-Write handlers do not overtake each other between CID0 and SID0; `MailboxAcks.AckIsWholeExactly` is for all runs.
- Driver.Adapter.Read: what the other nodes do during a read is one change between its last copy and its release; that the slot being read does not change meanwhile is an input there and a theorem of the protocol (`MailboxRuns.OnlyOwnersWrite`).
- DriverRuns.InterruptIsRun: for slots whose peer_id is their number, as the server promises; `Driver.Adapter.LinkRequest` and `Driver.Adapter.AllMsix` are stated for any peer_id.
- MinorNumbers.Registry.Register: the failures after the bit has been set (bus lookup, names, cdev, device, sysfs) are one input.
