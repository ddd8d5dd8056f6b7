# Netgear A6210 driver: verified models

Dafny models of the parts of the MediaTek/Ralink 802.11 driver where a small piece of state, an
in-place buffer or a fixed-width word decides whether data comes out right, and proofs of what those
parts promise. Most of the project is the 802.11n Block Ack code of `common/ba_action.c`; the rest
covers the ciphers and digests, A-MSDU deaggregation, the transmit dequeue loop, the next-beacon
arithmetic and the signal averages.

`dafny verify dfyconfig.toml` verifies everything. Nothing here is compiled into the driver.

## How the models are built

**Reordering buffer.** `SeqNum` has the 12-bit circular comparisons. `Reorder` gives, as functions on
values, what each routine of `common/ba_action.c` does to one session, to the shared block pool and
to the packets. `ReorderList` and `ReorderPath` are the imperative code: the linked lists spliced
through `next` pointers, and the receive path as a class whose methods are proved to compute those
functions. About the functions:

* `ReorderTimers`: the timeouts, the granted window and the frames kept out, in milliseconds, bytes and
  numbers.
* `ReorderWindow`: the window invariant, kept by every step, with its one exception pinned down.
* `ReorderSpec`, `ReorderSim`: an unbounded window (an integer head and a finite map of buffered
  frames), and a simulation of every event by it, across wrap-around.
* `ReorderOrder`, `ReorderRuns`: order of delivery over whole runs, and agreement with section
  9.21.7.6 of IEEE 802.11-2012.
* `ReorderSystem`: any number of sessions over one pool; no packet and no block is lost or doubled.
* `ReorderDelivery`: the two together, order of delivery for every session of a system that fits its
  pool.

`Common` has the types that several modules share.

**Session tables.** `BaRecipient` and `BaOriginator` model the two tables, the per-station links and
bitmaps (`BaStations`), and the setup timers, as classes over arrays proved against functions.

**Ciphers and digests.** `Crc32`, `Arc4`, `Wep`, `Michael`, `TkipMix` with the tables in `TkipSbox` and the
standard's example in `TkipExample`, `Md5`.

**Data path.** `Amsdu`, `TxDequeue`, `Beacon`, `Rssi`.

## What the code does that its comments and the standard do not say

* *Stranding.* When an out-of-order frame inside the window cannot be queued (no free block, or an
  EAPOL frame) it is announced at once and becomes the last number, but the list is not drained. If
  the number after it is queued, that frame is left at distance 1. `ReorderWindow.StepHeld` says the
  invariant survives a step if and only if this does not happen; `ReorderRuns.StrandingReorders` shows
  how it ends in a reordered delivery.
* *BlockAckReq.* The start of a BlockAckReq is handed up if it is queued, yet the last number becomes
  start - 1. The step is the standard's if and only if the start is not buffered
  (`ReorderRuns.BarIsStandardIff`); otherwise a second copy is handed up again (`BarRepeats`).
* *Old frames.* The standard measures from the start of the window, the driver from the number before
  it; they disagree at exactly one distance (`ReorderRuns.OldIsStandardIff`).
* *Next beacon.* The comment's formula is right, but its 32-bit evaluation is right if and only if
  the odd part of the beacon period (25 for the usual 100) divides the number of times the sum wraps
  (`Beacon.RemainIff`, `Beacon.WrongAfterWrap`).
* *A-MSDU.* A subframe shorter than 15 or longer than 1514 bytes ends the loop, so what follows it is
  lost (`Amsdu.ParseInvertsEncoding` gives the exact range). In station mode the rebuilt Ethernet
  header is put in front only if a SNAP header was taken off; any other payload is handed up bare
  (`Amsdu.PacketIsAddressedIff`, `Amsdu.BarePacket`).
* *WEP length.* The plaintext length of a received frame is computed in 16 bits. Frames of 5 to 7
  bytes pass the only test of the length, and the length wraps; it is right if and only if the frame
  has at least 8 bytes (`Wep.PlainLenFitsIff`, `Wep.ShortFrameWraps`).
* *MD5 append.* The guard of the loop is a 32-bit sum, right if and only if the sum stays below 2^32
  (`Md5.GuardIff`).
* *Dequeue count.* The count of packets taken in one call has 8 bits. It cannot wrap if and only if
  the limit is at most 7 (`TxDequeue.CountFitsIff`); all callers but one pass 4, the multicast
  power-save flush passes 32.
* *Muted setup.* A setup timer that goes off in monitor or test mode is not set again, so the setup
  waits until it is answered or ended (`BaOriginator.MutedHangs`).

## Model

| member | source | states |
|---|---|---|
| SeqNum.SmallerIsHalfSpace | include/mlme.h:769-773 | SEQ_SMALLER is a circular distance of 2048 or more |
| SeqNum.Classify | common/ba_action.c:1736-1776 | the five-way test of an arriving number decides exactly the order of the true, unbounded numbers |
| SeqNum.CompareDist | include/mlme.h:769-773 | two numbers compare, and follow one another, as their distances from a common base |
| SeqNum.Rebase | include/mlme.h:769-773 | moving the base forward shortens every distance by the same amount |
| ReorderList.BlockList.Push | common/ba_action.c:138-143 | the linked list gains the block at its front, acyclic and counted |
| ReorderList.BlockList.Pop | common/ba_action.c:147-162 | the front block leaves the list; null exactly when the list is empty |
| ReorderList.BlockList.Insert | common/ba_action.c:114-134 | walking and splicing gives the sorted insertion of the list's contents, or refuses a number already there and changes nothing |
| ReorderPath.RxPath.constructor | common/ba_action.c:215-254 | all blocks are free and the session starts empty at the sentinel |
| ReorderPath.RxPath.Alloc | common/ba_action.c:258-270 | a block out of the pool, null exactly when the pool is empty, the pool one smaller |
| ReorderPath.RxPath.ReleaseHead | common/ba_action.c:272-310 | the head of the list is announced and its block is back in the pool |
| ReorderPath.RxPath.IndicateInOrder | common/ba_action.c:282-310 | exactly the consecutive run after x is announced; the result is the last number announced or the sentinel |
| ReorderPath.RxPath.IndicateLe | common/ba_action.c:312-333 | exactly the prefix not after x is announced |
| ReorderPath.RxPath.Refresh | common/ba_action.c:336-355 | the whole list is announced in order and the last number is the sentinel |
| ReorderPath.RxPath.FlushOne | common/ba_action.c:359-405 | the forced shift to the next number, with the drain behind it |
| ReorderPath.RxPath.FlushTimeout | common/ba_action.c:359-405 | the two timeouts, compared as RTMP_TIME_AFTER compares a wrapping tick counter of any width: release all, or shift by one, or nothing |
| ReorderPath.RxPath.Queue | common/ba_action.c:1569-1591 | the queueing branch: stored once, a duplicate freed together with its block |
| ReorderPath.RxPath.Enqueue | common/ba_action.c:1562-1606 | queueing or fallback, the block kept by the EAPOL fallback included |
| ReorderPath.RxPath.Sort | common/ba_action.c:1725-1776 | the five cases and the first frame after a reset |
| ReorderPath.RxPath.Indicate | common/ba_action.c:1679-1777 | the timeout flush followed by the five cases |
| ReorderPath.RxPath.Slide | common/ba_action.c:1759-1776 | a frame beyond the window: release up to the new start, insert, drain |
| ReorderPath.RxPath.BlockAckReq | common/ba_action.c:1255-1308 | frames up to and including the start are released and the last number is start - 1 |
| ReorderPath.RxPath.IdleTimeout | common/ba_action.c:1017-1039 | an accepted session that has been idle is released and reset, whether or not anything is queued |
| ReorderPath.RxPath.AddBa | common/ba_action.c:561-636 | a renewed grant releases what is queued and resets the window |
| ReorderPath.RxPath.DelBa | common/ba_action.c:838-909 | teardown releases what is queued |
| ReorderWindow.HeldLength | common/ba_action.c:1590 | distances lo..win bound the length of a sorted list |
| ReorderWindow.LeSplits | common/ba_action.c:312-333 | the release loop stops exactly between the frames not after x and those after it |
| ReorderWindow.InOrderRuns | common/ba_action.c:282-310 | the in-order loop takes exactly the consecutive run |
| ReorderWindow.InsertSorts | common/ba_action.c:114-134 | insertion keeps the list strictly sorted and refuses exactly the numbers already queued |
| ReorderWindow.FlushTimeoutHeld | common/ba_action.c:359-405 | a timeout keeps the window invariant |
| ReorderWindow.TimeoutsEmpty | common/ba_action.c:359-405 | frames do not wait forever: BAWinSize timeouts in a row with nothing arriving leave nothing queued |
| ReorderWindow.BarTaken | common/ba_action.c:1301-1304 | a BlockAckReq is obeyed exactly when its start is 1..2048 ahead |
| ReorderWindow.BarHeld | common/ba_action.c:1301-1304 | a BlockAckReq keeps the window invariant |
| ReorderWindow.Position | common/ba_action.c:1736-1776 | each of the driver's tests as a range of distances, and where a frame beyond the window moves its start |
| ReorderWindow.QueueingFits | common/ba_action.c:1590 | the assertion that qlen is at most BAWinSize holds |
| ReorderWindow.FallbackHeld | common/ba_action.c:1592-1605 | the fallback keeps the invariant if and only if the successor is not queued |
| ReorderWindow.SortHeld | common/ba_action.c:1725-1776 | an arrival keeps the invariant if and only if it does not strand its successor |
| ReorderWindow.StepHeld | common/ba_action.c:1679-1777 | every event keeps the list strictly sorted with distances 2..BAWinSize, and empty at the sentinel, if and only if it does not strand |
| ReorderSpec.RunEnd | common/ba_action.c:282-310 | the end of the consecutive run: everything up to it is buffered and the next number is not |
| ReorderSpec.UptoIsPrefix | common/ba_action.c:312-333 | the numbers up to x in the map are the released prefix of the list, in order |
| ReorderSpec.SimRelease | common/ba_action.c:312-333 | releasing from the list is releasing from the map |
| ReorderSpec.SimInOrder | common/ba_action.c:282-310 | the in-order drain of the list is the advance of the unbounded head |
| ReorderSpec.SimInsert | common/ba_action.c:114-134 | storing in the list is storing in the map, duplicates refused alike |
| ReorderSim.SimExpire | common/ba_action.c:359-405 | the timeout flush is the unbounded window's |
| ReorderSim.SimBar | common/ba_action.c:1255-1308 | so is the BlockAckReq, at the sentinel as well |
| ReorderSim.ResetBar | common/ba_action.c:1301-1304 | at the sentinel exactly the starts below 2048 are obeyed |
| ReorderSim.Sorted5 | common/ba_action.c:1736-1776 | the 12-bit tests choose the case the unbounded number is in |
| ReorderSim.SimReceive | common/ba_action.c:1725-1776 | all five cases and the start of an epoch are one receive step of the unbounded window |
| ReorderSim.SimStep | common/ba_action.c:1679-1777 | every event is simulated by the unbounded window unless it strands |
| ReorderSim.SimGivesSpecInv | common/ba_action.c:1590 | related states have nothing buffered at the head's successor and nothing beyond the window |
| ReorderOrder.OrdStep | common/ba_action.c:1679-1777 | every step keeps the log in order within an epoch, repeats marked, and no number more than twice |
| ReorderRuns.StrandsAlike | common/ba_action.c:1592-1605 | an event strands a frame of the list if and only if it does so in the map |
| ReorderRuns.RunRefines | common/ba_action.c:1679-1777 | every run without stranding refines the run of the unbounded window, whatever the other sessions do to the pool |
| ReorderRuns.StepMarks | common/ba_action.c:1255-1308 | only a BlockAckReq, at its start, or a frame passed by inside the window, at its number, can lead to a second delivery |
| ReorderRuns.RunDelivers | common/ba_action.c:1679-1777 | from a fresh session, delivered numbers never go back within an epoch; one repeats only directly after itself, and only if a BlockAckReq of the run starts there or a frame of the run with that number was passed by |
| ReorderRuns.OnlyBarStartsRepeat | common/ba_action.c:1255-1308 | when every frame inside the window is queued and BlockAckReqs occur at will, only the start of a BlockAckReq of the run is ever delivered twice |
| ReorderRuns.QueueingRunIsStrict | common/ba_action.c:1569-1591 | on the queueing branch without BlockAckReqs any interleaving of arrivals, timeouts, resets, ADDBA and DELBA delivers strictly increasing numbers within every epoch |
| ReorderRuns.NextIsStandard | common/ba_action.c:1736-1746 | the next number: announcing and draining is the standard's rule |
| ReorderRuns.WithinIsStandard | common/ba_action.c:1755-1758 | inside the window the standard hands up nothing either |
| ReorderRuns.BeyondIsStandard | common/ba_action.c:1759-1776 | beyond the window: slide, store and drain is the standard's rule |
| ReorderRuns.ReceiveIsStandard | common/ba_action.c:1725-1776 | the five cases together are the one rule of section 9.21.7.6 |
| ReorderRuns.BarIsStandardIff | common/ba_action.c:1301-1304 | a BlockAckReq step is the standard's if and only if its start is not buffered |
| ReorderRuns.BarRepeats | common/ba_action.c:1301-1304 | a buffered start is handed up, and handed up again when a copy arrives |
| ReorderRuns.OldIsStandardIff | common/ba_action.c:1747-1754 | "old" means the same as in the standard at every distance but 2048 |
| ReorderRuns.StrandingReorders | common/ba_action.c:1592-1605 | every stranding can end with a frame handed up behind its successor |
| ReorderSystem.StepKeeps | common/ba_action.c:1562-1606 | one session, every event: the frame is announced, freed or queued exactly once, and no block is lost |
| ReorderSystem.SysKeeps | common/ba_action.c:1679-1777 | packets and blocks of all sessions together are conserved by every event, frames refused outside any session included |
| ReorderSystem.RunKeeps | common/ba_action.c:1679-1777 | over every run each packet handed in is in exactly one place, and free + queued + kept blocks stay the same |
| ReorderSystem.AllocationSucceeds | common/ba_action.c:1568-1605 | when the windows together fit the pool and no block is kept, the allocation of an out-of-order frame succeeds |
| ReorderSystem.StaysProvisioned | common/ba_action.c:1568-1605 | that condition is kept by every event except an out-of-order EAPOL frame or a grant beyond the pool |
| ReorderSystem.PoolSuffices | common/ba_action.c:215-279 | hence over every such run every allocation of the run succeeds, and every list stays in its window |
| ReorderDelivery.ProjectRuns | common/ba_action.c:1679-1777 | seen from one session such a run is a run of that session in which every frame inside the window is queued, ending in the same state |
| ReorderDelivery.SystemDelivers | common/ba_action.c:1679-1777 | hence in a system whose windows fit the pool every session delivers numbers that never go back within an epoch, and twice only the start of a BlockAckReq to that session, whatever the other sessions do |
| ReorderTimers.AfterIff | include/os/rt_linux.h:480-483 | RTMP_TIME_AFTER on a wrapping tick counter says which of two times less than half its range apart comes later |
| ReorderTimers.FlushTimeoutMeans | common/ba_action.c:359-405 | up to 100 ms after the last frame the list is left alone, past that it is shifted, and past 500 ms two frames or more all go up and the session starts afresh |
| ReorderTimers.FlushOneMeans | common/ba_action.c:390-403 | a shift gives up the next number and exactly the consecutive numbers queued behind it |
| ReorderTimers.IdleMeans | common/ba_action.c:1017-1039 | a session is handed up and reset once it has been idle for more than 1000 ticks, and not before |
| ReorderTimers.GrantedWinMeans | common/ba_action.c:573-578 | the window granted is the smaller of the peer's 8-bit buffer size and the limit, and 64 when either is 0 |
| ReorderTimers.OutsideMeans | common/ba_action.c:1685-1715 | frames of more than 1520 bytes that are no A-MSDU and frames of unknown stations are freed, frames with no session announced, and no session changes |
| ReorderTimers.DropsMeans | common/ba_action.c:1747-1754 | exactly repetitions and frames from the older half of the numbers are counted and freed |
| ReorderTimers.FallbackMeans | common/ba_action.c:1562-1606 | inside the window a frame goes up at once if it is an EAPOL frame or the pool is empty, and otherwise waits |
| BaStations.SetBitCounts | common/ba_action.c:481-558 | setting or clearing one bitmap bit changes the number of set bits by exactly that bit |
| BaRecipient.SearchFinds | common/ba_action.c:639-669 | whenever the guard on numAsRecipient passes, the search finds a slot; it refuses exactly when every slot is in use |
| BaRecipient.AddKeeps | common/ba_action.c:561-636 | ADDBA keeps counter, links and bitmap consistent, fails exactly when a new session finds the table full, and otherwise makes exactly this session live |
| BaRecipient.TearDownKeeps | common/ba_action.c:838-909 | DELBA ends exactly this session, or changes nothing when there is none or its frame cannot be allocated |
| BaRecipient.LinksInjective | common/ba_action.c:561-636 | no two sessions share a slot |
| BaRecipient.FreshInv | common/mlme.c:3145-3163 | the tables start consistent |
| BaRecipient.ReachableInv | common/ba_action.c:561-909 | over every sequence of ADDBA and DELBA the tables stay consistent |
| BaRecipient.EndsOneMore | common/ba_action.c:912-920 | ending the sessions TID after TID ends those of the station whose DELBA frame can be allocated, and no other |
| BaRecipient.RecipientTable.constructor | common/mlme.c:3145-3163 | an empty table |
| BaRecipient.RecipientTable.Alloc | common/ba_action.c:639-669 | the search loop returns the first unused slot from 1 on and counts it |
| BaRecipient.RecipientTable.Grant | common/ba_action.c:561-636 | the in-place update is the table's Add |
| BaRecipient.RecipientTable.Free | common/ba_action.c:736-756 | the in-place update frees the slot, its link and the counter |
| BaRecipient.RecipientTable.End | common/ba_action.c:838-909 | the in-place update is the table's TearDown |
| BaRecipient.RecipientTable.EndAll | common/ba_action.c:912-920 | exactly the sessions of the station whose DELBA can be allocated end, and the tables stay consistent |
| BaOriginator.SearchFinds | common/ba_action.c:672-697 | whenever the guard on numAsOriginator passes, the search finds a slot |
| BaOriginator.SetUpKeeps | common/ba_action.c:411-478 | a setup changes nothing if not allowed, under way or out of slots, and otherwise one slot of its own waits with token 1 and its timer armed |
| BaOriginator.AnswerKeeps | common/ba_action.c:481-558 | an answer establishes exactly a waiting session, sets its TXBAbitmap bit and stops its timer |
| BaOriginator.FreeKeeps | common/ba_action.c:700-733 | freeing keeps both counters, the links and the bitmap consistent |
| BaOriginator.TearDownKeeps | common/ba_action.c:759-836 | teardown ends exactly this session, or changes nothing when there is none or an established one's frame cannot be allocated |
| BaOriginator.FireKeeps | common/ba_action.c:937-1000 | the setup timer sends the next request, waits out a scan or, with token 8, frees the setup; in monitor and test mode the setup is left with no timer |
| BaOriginator.ServeKeeps | common/ba_action.c:411-1000 | every event keeps numAsOriginator, numDoneOriginator, the set bits and the links consistent |
| BaOriginator.ServeArmed | common/ba_action.c:411-1000 | every setup keeps a pending timer as long as none goes off in monitor or test mode |
| BaOriginator.MutedHangs | common/ba_action.c:937-962 | a setup whose timer did go off there stays as it is, and cannot be started anew, until it is answered or ended |
| BaOriginator.LinksInjective | common/ba_action.c:411-478 | no two sessions share a slot |
| BaOriginator.ReachableInv | common/ba_action.c:411-1000 | so does every sequence of events |
| BaOriginator.BudgetPays | common/ba_action.c:937-1000 | each request is paid for out of 8 - Token of the waiting session |
| BaOriginator.UnansweredSendsWithinBudget | common/ba_action.c:937-1000 | whatever happens to other sessions, an unanswered setup sends at most 8 - Token more requests: seven from token 1 |
| BaOriginator.Unaddressed | common/ba_action.c:411-1000 | an event that is not about a station and TID leaves its link and its slot as they are |
| BaOriginator.UnansweredIsFreed | common/ba_action.c:937-1000 | whatever happens to the other sessions in between, the timer of an unanswered setup goes off at most 9 - Token times outside a scan, and when it has the session is gone |
| BaOriginator.FreshSetUpIsFreed | common/ba_action.c:411-1000 | after a setup request that nobody answers at most seven more are sent, the timer goes off at most eight times outside a scan, and then the session is gone |
| BaOriginator.FreshSetUpFires | common/ba_action.c:937-1000 | both bounds are attained: a run with seven requests and eight firings exists |
| BaOriginator.EndsOneMore | common/ba_action.c:912-920 | ending the sessions TID after TID ends every setup and every established session whose DELBA can be allocated, and no other |
| BaOriginator.OriginatorTable.Alloc | common/ba_action.c:672-697 | the search loop returns the first unused slot from 1 on and counts it |
| BaOriginator.OriginatorTable.Start | common/ba_action.c:411-478 | the in-place update is the table's SetUp |
| BaOriginator.OriginatorTable.Accept | common/ba_action.c:481-558 | the in-place update is the table's Answer |
| BaOriginator.OriginatorTable.Free | common/ba_action.c:700-733 | the in-place update frees the slot, its link, its bit and the counters |
| BaOriginator.OriginatorTable.End | common/ba_action.c:759-836 | the in-place update is the table's TearDown |
| BaOriginator.OriginatorTable.EndAll | common/ba_action.c:912-920 | the in-place loop ends exactly those sessions, and the tables stay consistent |
| BaOriginator.OriginatorTable.Timeout | common/ba_action.c:937-1000 | the in-place update is the timer's step in every mode, with the token it sends |
| Crc32.EntryIsShifts | common/cmm_wep.c:31-97 | each of the 256 table entries is eight bit steps of the reflected polynomial |
| Crc32.TableStepIsShifts | common/cmm_wep.c:119-125 | one table step is eight bit steps, from every accumulator and byte |
| Crc32.TableIsBitSerial | common/cmm_wep.c:119-125 | the table-driven sequence is the bit-serial one for every start and message |
| Crc32.FcsConcat | common/cmm_wep.c:119-125 | the sequence of a concatenation continues from that of its first part |
| Crc32.CalcFcs | common/cmm_wep.c:119-125 | the loop over a buffer computes the bit-serial sequence |
| Arc4.SwapKeepsBlock | common/crypt_arc4.c:53-61 | a swap keeps the key block a permutation of 0..255 |
| Arc4.Schedule | common/crypt_arc4.c:53-61 | so does every round of the key schedule |
| Arc4.ScheduleRoundMoves | common/crypt_arc4.c:53-61 | round k moves the swap index by the element at k and by key byte k modulo the key length, and exchanges exactly those two elements |
| Arc4.FirstRound | common/crypt_arc4.c:53-61 | the first round exchanges element 0 with the one at the first key byte |
| Arc4.ScheduleDeterminesKey | common/crypt_arc4.c:53-61 | keys of one length with the same blocks and swap indices in every round are equal: no key byte is left out |
| Arc4.Run | common/crypt_arc4.c:85-98 | so does every number of rounds of the generator |
| Arc4.NextMoves | common/crypt_arc4.c:85-98 | a round moves i by one, j by the element there, and exchanges exactly those two elements |
| Arc4.PreviousOfNext | common/crypt_arc4.c:85-98 | every round can be undone |
| Arc4.FirstByte | common/crypt_arc4.c:85-98 | the first key byte in terms of the scheduled block |
| Arc4.CryptConcat | common/crypt_arc4.c:79-99 | computing on a and then on b is computing on a + b |
| Arc4.CryptTwice | common/crypt_arc4.c:79-99 | from the same context computing twice is the identity |
| Arc4.DiscardDrops | common/crypt_arc4.c:113-127 | discarding n key bytes is computing on any n bytes and dropping them |
| Arc4.Cipher.constructor | common/crypt_arc4.c:42-62 | the in-place schedule is the function of the key |
| Arc4.Cipher.Compute | common/crypt_arc4.c:79-99 | the output is the enciphered input also when it lies at or below the input in the same buffer, and no other byte changes |
| Arc4.Cipher.Discard | common/crypt_arc4.c:113-127 | the context moves on by n rounds |
| Wep.Header | common/cmm_wep.c:189-196 | the vector, then the low two bits of the key index on top of six zeros |
| Wep.IcvOfDigits | common/cmm_wep.c:211-247 | the check value of the digits 1 to 9 is that of the CRC catalogue, low-order byte first |
| Wep.OpensIff | common/cmm_wep.c:267-332 | a frame is accepted with data if and only if its body is the sealing of that data under its own vector |
| Wep.OpenSealed | common/cmm_wep.c:211-332 | decapsulating header and encapsulated data gives the data back, for every key index, vector, key and plaintext |
| Wep.Encrypt | common/cmm_wep.c:211-247 | integrity value and cipher in place; nothing behind the sealed bytes changes, and nothing at all without a key |
| Wep.PlainLenFitsIff | common/cmm_wep.c:294-310 | the 16-bit plaintext length keeps text and integrity value inside the received frame if and only if the frame has at least 8 bytes |
| Wep.ShortFrameWraps | common/cmm_wep.c:294-310 | a frame of 5 bytes passes the length test and gives a plaintext length of 65533 |
| Wep.AcceptedIsDecapsulated | common/cmm_wep.c:267-332 | from 8 bytes on, what is accepted depends on the frame alone and is its decapsulation |
| Wep.Decrypt | common/cmm_wep.c:267-332 | for every length, in 16-bit arithmetic: accepts exactly what the integrity value at the computed place confirms; from 8 bytes on these are exactly the frames that open, with the right plaintext and length although the output overwrites the buffer 4 bytes below the input |
| Wep.GtkUnwrapsWrapped | common/cmm_tkip.c:788-822 | unwrapping a wrapped group key gives it back, at every length |
| Wep.GtkWrapDrops | common/cmm_tkip.c:788-822 | wrapping is enciphering any 256 bytes and the group key with vector and key as cipher key, and dropping the 256 |
| Wep.WrapGtk | common/cmm_tkip.c:788-822 | the key stream after 256 discarded bytes covers the group key |
| Michael.BlockFollows | common/cmm_tkip.c:254-274 | the low 32 bits of the machine words follow the 32-bit block function, whatever the bits above hold and however many of them the machine keeps |
| Michael.Padded | common/cmm_tkip.c:323-335 | the message, 0x5a, and 4 to 7 zeros that fill the last word |
| Michael.MicOfNothing | common/cmm_tkip.c:223-339 | the code of the empty message under the key of zeros is that of the standard |
| Michael.MicOfMichael | common/cmm_tkip.c:223-339 | so is that of the message "Michael" under its key |
| Michael.Pseudo | common/cmm_tkip.c:361-374 | destination, source and priority at bytes 0, 6 and 12, and three zeros |
| Michael.CoveredParts | common/cmm_tkip.c:479-511 | of a plain frame and of one with an 802.1Q tag the payload is covered, behind LLC header and type if there is a header |
| Michael.Engine.GetWord | common/cmm_tkip.c:163-173 | the low 32 bits are the four bytes, low byte first, despite the sign of the shifted int |
| Michael.Engine.constructor | common/cmm_tkip.c:223-233 | the state of the empty message |
| Michael.Engine.AppendByte | common/cmm_tkip.c:254-274 | the state follows the message by one byte |
| Michael.Engine.Append | common/cmm_tkip.c:296-303 | the state follows the message however it is cut into calls |
| Michael.Engine.PutWord | common/cmm_tkip.c:194-202 | the four bytes of the low half |
| Michael.Engine.GetMic | common/cmm_tkip.c:323-339 | on a machine of any width the result is the blockwise code of everything appended |
| Michael.Calculate | common/cmm_tkip.c:460-519 | the code over addresses (the AP-client's own source address where one is used), priority, LLC header if any, and payload, with or without a VLAN tag |
| Michael.Compare | common/cmm_tkip.c:402-436 | accepts if and only if the eight bytes behind the text are its code |
| Michael.SendAndReceive | common/cmm_tkip.c:402-519 | Compare accepts the eight bytes that Calculate produced for the same frame, on machines of any two widths, and refuses any other eight bytes |
| TkipMix.SboxIsS | common/cmm_tkip.c:528-541 | the two byte tables make up the 16-bit substitution of the standard |
| TkipMix.LowRotr1 | common/cmm_tkip.c:543-554 | a rotation of the low 16 bits, whatever lies above them |
| TkipMix.LowGrow | common/cmm_tkip.c:596-602 | an unreduced sum of phase 2 has the low 16 bits of the definition's |
| TkipMix.ReducedGrow | common/cmm_tkip.c:577-586 | a reduced sum of phase 1 is the definition's exactly |
| TkipMix.MixPhase1 | common/cmm_tkip.c:566-586 | p1k ends up holding the 16-bit words of phase 1 |
| TkipMix.MixSubstitute | common/cmm_tkip.c:596-602 | the substitution steps of phase 2 on the low 16 bits |
| TkipMix.MixRotate | common/cmm_tkip.c:604-609 | its rotation steps on the low 16 bits |
| TkipMix.PutSeed | common/cmm_tkip.c:611-631 | the 16 key bytes cut out of unreduced words are the definition's |
| TkipMix.IndexIs | common/cmm_tkip.c:577-617 | the eight passes are numbered from 0 to 7, and the second key byte is the first with bit 5 set and bit 7 cleared |
| TkipMix.MixKey | common/cmm_tkip.c:557-632 | the whole mixing in unreduced arithmetic is section 11.4.2.5 of IEEE 802.11-2012 in 16-bit words, for every key, address, counter and table contents |
| TkipSbox.EntryIsSubstitution | common/cmm_tkip.c:37-107 | every entry of the two tables is the AES substitution of its index, the affine image of the inverse in the field of 256 elements, doubled and tripled |
| TkipExample.Phase1OfExample | common/cmm_tkip.c:566-586 | with these tables phase 1 gives the words of the example in annex M of IEEE 802.11-2012 |
| TkipExample.SeedOfExample | common/cmm_tkip.c:557-632 | and the whole mixing gives its packet key |
| Md5.Gap | common/crypt_md5.c:288-299 | the fewest zeros that leave 8 bytes of the last block |
| Md5.Padded | common/crypt_md5.c:288-305 | sections 3.1 and 3.2 of RFC 1321: the message, 0x80, zeros, and the number of its bits modulo 2^64 in 8 bytes, in whole blocks with fewer than 64 zeros |
| Md5.LittleEndianValue | common/crypt_md5.c:300-303 | the bytes of a number, low-order byte first, stand for that number |
| Md5.PadsOne | common/crypt_md5.c:288-305 | with room for the length the padding completes one block |
| Md5.PadsTwo | common/crypt_md5.c:288-305 | without it the length goes into a block of its own |
| Md5.BitsOfCounter | common/crypt_md5.c:300-303 | eight times the wrapped 64-bit counter is the low 64 bits of the bit length |
| Md5.Context.constructor | common/crypt_md5.c:85-92 | the state of the empty message |
| Md5.Context.Hash | common/crypt_md5.c:215-224 | the block is absorbed and left zero |
| Md5.GuardIff | common/crypt_md5.c:251-253 | the 32-bit guard of the append loop says what it means if and only if block length and rest add up to less than 2^32 |
| Md5.Context.Append | common/crypt_md5.c:245-268 | the context follows the message, zero tail of the block included, and the loop ends |
| Md5.Context.End | common/crypt_md5.c:288-311 | the digest is the fold over the padded message |
| Md5.Sum | common/crypt_md5.c:330-338 | one call over a whole message |
| Md5.SumChunks | common/crypt_md5.c:245-311 | any sequence of appends gives the digest of their concatenation |
| Amsdu.SlicesDisjoint | common/cmm_data.c:1736-1885 | in arbitrary bytes the announced subframes are slices in bounds, at multiples of 4, and disjoint |
| Amsdu.VisitedExact | common/cmm_data.c:1734-1891 | nMSDU is the number announced, and one more exactly when the loop ended at a subframe it gave up on |
| Amsdu.ParseInvertsEncoding | common/cmm_data.c:1736-1885 | for every encoded list the parse gives it back if and only if all but the last have 15..1514 bytes and the last 1..1518 |
| Amsdu.HandedIsPacket | common/cmm_data.c:1752-1860 | what follows a payload in memory matters only if the payload is shorter than a SNAP header |
| Amsdu.PacketsOfSubframes | common/cmm_data.c:1752-1860 | for arbitrary bytes the packets are those of the subframes found, in order |
| Amsdu.PacketIsAddressedIff | common/cmm_data.c:1844-1854 | the packet starts with the MSDU's addresses if and only if a SNAP header was taken off or the payload itself starts with them |
| Amsdu.BarePacket | common/cmm_data.c:1844-1854 | a payload with another LLC header is handed up without addresses |
| Amsdu.PacketInBytes | include/rtmp.h:459-490 | in bytes: AA AA 03 00 00 00 is taken off except in front of 81 37 and 80 F3, AA AA 03 00 00 F8 always, and the packet is then addresses, type and rest |
| Amsdu.OtherPacket | include/rtmp.h:459-490 | a payload of at least 8 bytes with any other first six is handed up as it is |
| Amsdu.EncodedIsAnnounced | common/cmm_data.c:1734-1891 | what the station hands up are the packets of the MSDUs that were sent, in order; PacketIsAddressedIff says which of them are Ethernet frames |
| Amsdu.Announce | common/cmm_data.c:1752-1860 | the header rebuilt in place gives the packet, and nothing behind it changes |
| Amsdu.DeaggregateAnnounce | common/cmm_data.c:1734-1891 | although subframes are overwritten as it goes, the loop announces the packets of the frame as received, and ends |
| TxDequeue.JoinedIsLong | common/cmm_data.c:1275-1281 | a block has at least 14 bytes, and 15 for every packet that joins |
| TxDequeue.BlockCount | common/cmm_data.c:1283-1293 | no block has more than 249 packets |
| TxDequeue.CountFitsIff | common/cmm_data.c:1340-1545 | the 8-bit count has room for every block if and only if the limit is at most 7 |
| TxDequeue.TxQueue.Aggregate | common/cmm_data.c:1512-1533 | the block and what is left are the head and the old queue; limits hold; it stops only for an empty queue, no descriptor, or a packet that may not join |
| TxDequeue.TxQueue.TakeBlock | common/cmm_data.c:1487-1540 | a well-built block of the right kind is handed over, filled until the queue is empty, a descriptor is missing or the next packet may not join; the head goes back, and nothing changes, exactly when it is for a Ralink block and the hardware wants it back at one of the two tests |
| TxDequeue.TxQueue.TakeHead | common/cmm_data.c:1420-1545 | a management frame goes to the management ring, data is dropped exactly when its station has failed too often, other data is sent; nothing is taken only without a descriptor or when the head went back |
| TxDequeue.NothingDropped | common/cmm_data.c:1437-1465 | where no station fails, everything taken off a queue is sent |
| TxDequeue.CanDoAggregateMeans | common/cmm_data.c:1258-1307 | which packets may join which block, in lengths and kinds |
| TxDequeue.WellBuiltMeans | common/cmm_data.c:1495-1540 | a Ralink block has two packets, an A-MSDU block two or more with at most 3740 bytes, any other one; joiners have 15 bytes or more and are no multicast, DHCP, EAPOL or WAI packets |
| TxDequeue.TxQueue.Dequeue | common/cmm_data.c:1359-1560 | what was taken, in order, and what waits are together what was put in, and every outcome was right at its tick; nothing is taken after a halt or with limit 0; the loop ends, and stops only for a halt, an empty queue, hardware without room, or a number taken that modulo 256 reaches the limit; with a limit up to 7 that is the number taken, and at most one block too many |
| TxDequeue.DequeuePackets | common/cmm_data.c:1332-1560 | the same for every access category; every category addressed and idle is served until it has to stop, unless the adapter halts; the others are untouched |
| Beacon.RemainIff | common/cmm_mac_usb.c:1587-1591 | the 32-bit code finds the 64-bit timer's place in the period if and only if the odd part of the period divides the number of times the sum wraps |
| Beacon.RightWithoutWrap | common/cmm_mac_usb.c:1587-1591 | so it does while the sum is below 2^32 |
| Beacon.RightForDivisor | common/cmm_mac_usb.c:1587-1591 | and always when the period divides 2^32 |
| Beacon.WrongAfterWrap | common/cmm_mac_usb.c:1587-1591 | a timer value, after 686 days, at which the sum has wrapped once and a period of 400, whose odd part is 25, gives the wrong remainder |
| Beacon.CommonCfg.BeaconStart | common/cmm_mac_usb.c:1406-1409 | factor and remainder divide 2^32 by the period, the remainder in 1..P |
| Beacon.CommonCfg.UpdateExec | common/cmm_mac_usb.c:1587-1600 | delta is in 1..P and leads to the next beacon time under the same condition; the timer is set 10 ms later, or to 100 ms when that is over 150 ms away |
| Rssi.TakeExact | common/cmm_data.c:2225-2326 | neither the 16-bit nor the 8-bit word overflows |
| Rssi.RunWithin | common/cmm_data.c:2225-2326 | over any run of samples in lo..hi the average stays in lo..hi |
| Rssi.RunConverges | common/cmm_data.c:2225-2326 | under a constant sample the average reaches it without overshooting, within a stated number of steps, and stays |
| Rssi.RssiSample.TakeInto | common/cmm_data.c:2225-2326 | one antenna: the first sample is taken over, a later one moves the average towards itself |
| Rssi.RssiSample.Update | common/cmm_data.c:2225-2326 | each of the five averages takes its own sample, the first frame told by antenna 0 |

## Left out

- Locks and interleaving inside a routine: every routine of the Block Ack code is one atomic step; in the dequeue loop packets may arrive between two passes, not during one.
- ReorderPath.RxPath: one session and its pool; several sessions over one pool are modelled on values in ReorderSystem.
- The duplicates of the receive path for hardware header translation in `common/ba_action.c`.
- ADDBA, DELBA and BAR frames themselves, and how a window limit is reassigned among stations: a grant is a number, and sending a frame either can or cannot be allocated.
- Md5.Context.Append: a call for which block length and message length add up to 2^32 or more is outside the contract; GuardIff shows that this is exactly where the guard goes wrong.
- Md5.SumChunks: the same, for each of its appends.
- The 64 rounds of MD5 on one block: an arbitrary function in the proofs.
- Amsdu.DeaggregateAnnounce: access point and AP-client branches, the copy of EAPOL payloads to the MLME queue, and a failing packet clone are not modelled; the buffer has 8 readable bytes behind the frame, which the test for SNAP may look at.
- TxDequeue.TxQueue.Dequeue: classification, descriptor availability and the age of a station's failures are answered by an arbitrary environment; with a limit above 7, where the 8-bit count can wrap, the number of packets taken is known modulo 256 only. Data packets in a queue have at least 14 bytes, because shorter ones are freed on the way in.
- Rssi.RssiSample.Update: the conversion of raw values and the chip-specific corrections to them; a sample is what is stored as the last value.
- Fragment reassembly in `common/cmm_data.c`, whose state is not reset after completion.
- USB bulk-out ring positions, chip and register programming, scanning, sanity tests of management frames, and ioctl dispatch: hardware not visible here, or easy lookups.
- Michael.Calculate: the priority is appended as the first four bytes of an unsigned long, which is the priority and three zeros on a little-endian machine; big-endian machines are outside the model.
- Michael.Compare: the same.
- Allocation failure in the crypto helpers.
