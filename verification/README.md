# A model of the monvark miner, with proofs

monvark mines Monetarium's BLAKE3 proof of work on OpenCL devices, with a node it
starts and owns. This project models what the miner does and proves what that
amounts to. It has five parts.

1. **The search.** A device folds the first 128 bytes of a 192-byte work item into
   a BLAKE3 midstate, passes twenty words to an unrolled kernel, and re-hashes and
   judges what the kernel reports. There are three renderings of one function: the
   definition (sections 2.2 and 2.4 of the BLAKE3 paper, `Blake3Spec`), the host's
   unrolled Go (`Blake3Host`) and the specialised kernel (`Kernel`). The definition
   gives a published hash (`Blake3Vectors`), and the three are proved equal, byte
   layout, dropped zero words and folded constants included. One turn of the device
   loop is proved to be brute force over the nonces below the work size (`Header`,
   `BruteForce`, `MissedHeader`, class `Device.Device`).
2. **Partitioning.** The rolling extra nonce and the device bytes keep any two
   headers of a fleet apart, up to exact bounds (`ExtraNonce`, `Fleet`).
3. **The threads.** Work publication, device loops, share submission, the payee
   check, the expiry poll, the node watch, the statistics printer, the two contexts
   and the sticky fatal flag are one step system (`MinerState`); a run is any finite
   interleaving. What holds over every run is in `MinerFatal`, `MinerShares`,
   `MinerReasons`, `MinerExpiry`, `MinerDelivery` and `MinerShutdown`. `MinerHeaders`
   and `MinerCounts` join it to the first two parts: what the node is sent are the
   winners of the launches, none of them twice, and what counts as a share is theirs.
   `MinerHang` and `MinerStartup` find the runs that hang, in terms of those winners
   and of the notifications before Run.
4. **The arithmetic** of the duty cycle and of the work size (`Throttle`,
   `Calibrate`).
5. **The process and its files**: order of startup, the node's exactly one stop, the
   exit status, the saved device choice and the node's configuration (`Lifecycle`,
   `Text`, `Settings`, `NodeConf`).

Five properties one might expect of the code turn out to hold only under a
condition, which is proved exact:

- **Targets of 2^224 and more.** The kernel drops every hash whose last word is not
  zero. With target or PowLimit below 2^224 nothing is lost
  (`BruteForce.SearchIsBruteForce`); from 2^225-1 on, a header worked out in full
  meets the target and is never kept (`MissedHeader.HeaderMissed`). So on a network
  whose PowLimit is 2^k-1 the search is brute force exactly if k is at most 224
  (`MissedHeader.BruteForceExactly`).
- **Devices beyond 256.** A comment in device.go (111-112) promises 65536 devices.
  Both device bytes depend on the index modulo 256 only (`Fleet.SeparationEnds`), and
  two devices can come to try the same header exactly if their indices agree modulo
  256 (`Fleet.DevicesApartExactly`).
- **Shutdown.** `foundCandidate` sends on a channel of ten while it holds the device
  lock. Once the submit thread has gone and no device is on a launch, the run
  returns exactly if at most ten of the winners found are left untaken
  (`MinerHang.ReturnsIffFewLeft`). Winners of several launches can pile up before the
  submit thread takes one: launches of one device can end in a run that is done and
  never returns exactly if they have more than ten winners in all
  (`MinerHang.DeadlocksExactly`).
- **Startup.** Nothing takes work up before Run. A work item of NewMiner that finds a
  device's queue full of notifications waits until the caller's context is done
  (`MinerStartup.StartupHangs`); it takes five of them, and five are enough
  (`MinerStartup.FewNotificationsStart`, `MinerStartup.StartupHangIsReachable`).
- **Calibration.** A target time more than four times what the largest launch takes
  (less a 2^22th part) wraps around in 32 bits, to as little as zero
  (`Calibrate.CalibrationBound`, `Calibrate.CalibrationEndsWithZero`).

`dafny verify dfyconfig.toml` checks the whole project.

## Model

| member | source | states |
|---|---|---|
| `Words.FromBytesToBytes` | blake3/convert.go:19-27 | writing a word little-endian and reading it back gives the word |
| `Words.ToBytesFromBytes` | blake3/convert.go:19-27 | reading four bytes as a word and writing it back gives the bytes |
| `Words.PutUint32` | blake3/convert.go:24-30 | the in-place write changes exactly the four bytes at its offset, to the word's |
| `Words.GetPutOther` | device.go:157-160 | a word written at one offset leaves every word at a disjoint offset as it was |
| `Words.ValueIncrement` | util/util.go:19-25 | incrementing a uint32 adds one to its value modulo 2^32 |
| `Words.ValueAdds` | device_opencl.go:319-321 | words add as numbers do, modulo 2^32 |
| `Words.ValueOfWordOf` | blake3.cl:45 | a global id's nonce word has the id's value modulo 2^32 |
| `Words.WordOfInjective` | blake3.cl:45 | different global ids below 2^32 are different nonces |
| `Words.LastWordZero` | device.go:163-175 | the last word of a 32-byte hash is zero exactly if the hash, read little-endian, is below 2^224 |
| `Blake3Host.G` | blake3/block.go:30-40 | for all words, the step-by-step reassignments with left rotations by negative amounts are the paper's quarter round |
| `Blake3Host.CompressUnrolled` | blake3/block.go:45-171 | for every chaining value, block, length and flags, the fifty-six unrolled calls are seven rounds of columns and diagonals under the iterated message permutation, truncated to 256 bits |
| `Blake3Host.IntoWords` | blake3/convert.go:15-21 | the array filled in place holds the little-endian words of the zero-padded block, of which at most 64 bytes are taken |
| `Blake3Host.AsBytes` | blake3/convert.go:24-30 | the 32 bytes are the eight words little-endian, in order |
| `Blake3Host.RunBlock` | blake3/block.go:179-183 | one block gives the paper's chaining value for its padded words, its own length and the flags |
| `Blake3Host.Block` | blake3/block.go:198-200 | the same for a full block, as the midstate is folded |
| `Blake3Host.FinalBlock` | blake3/block.go:206-208 | the bytes are the final hash from the midstate, with the chunk-end and root flags |
| `Blake3Host.MidstateChainingIsHashing` | blake3/block.go:185-208 | for every 128-byte head and every final block of 1 to 64 bytes, folding the head and finishing with the tail is the single-chunk root hash of the whole |
| `Blake3Spec.SevenRounds` | blake3/block.go:78-158 | seven rounds over the schedule are seven rounds with the message permuted once more before each |
| `Blake3Vectors.SevenTables` | blake3/block.go:88-158 | the seven rounds are the rounds under seven literal tables of message words, one for each of the 112 places |
| `Blake3Vectors.PublishedHash` | blake3/block.go:179-208 | the hash of the 64 bytes 0 to 63 is the one published for them, its rounds worked out |
| `Kernel.Rotations` | blake3.cl:13 | the kernel's macro over OpenCL's rotate is rotation to the right by 16, 12, 8 and 7 |
| `Kernel.Mix` | blake3.cl:65-68 | a full kernel line is a quarter round |
| `Kernel.MixZero` | blake3.cl:63-64 | a line that leaves out the exclusive or with the zero counter is the quarter round with that zero |
| `Kernel.MixFirst` | blake3.cl:69 | a line that drops its second message word is the quarter round with a zero there |
| `Kernel.MixSecond` | blake3.cl:80 | a line that drops its first message word is the quarter round with a zero there |
| `Kernel.MixNeither` | blake3.cl:70 | a line without message words is the quarter round with two zeros |
| `Kernel.FinalState` | blake3.cl:57-130 | for every midstate and message with words 13 to 15 zero, the kernel's fifty-six lines leave the state of the paper's seven rounds at length 52 and flags 10 |
| `Kernel.LastWord` | blake3.cl:132-155 | the word the kernel tests is zero exactly if the last word of that compression is |
| `Kernel.Search` | blake3.cl:15-159 | one work item appends its id to the buffer and counts it exactly if that word is zero, and otherwise changes nothing |
| `Kernel.EnqueueNDRange` | device_opencl.go:420-424 | over ids 0 to the work size, one after another and with fewer than 64 survivors, the buffer lists exactly the surviving nonces in order and is otherwise unchanged |
| `Header.SameMessage` | device_opencl.go:388-401 | the twelve arguments with the nonce skipped at word 3, the nonce and three zeros are the words of the zero-padded 52-byte tail the host rebuilds, whatever bytes 180 to 191 hold |
| `Header.HostHash` | device.go:150-161 | finishing the work's midstate with a candidate's tail is the BLAKE3 hash of the candidate's 180 bytes |
| `Header.KernelAgreesWithHost` | device.go:163-175 | the kernel keeps a nonce exactly if the hash of the header the host rebuilds for it is below 2^224 |
| `BruteForce.SurvivorsAreHits` | device_opencl.go:324-346 | the nonces a launch reports are those whose header hashes below 2^224, even though the data was prepared with an older second extra nonce |
| `BruteForce.LaunchNonce2Wins` | device.go:154-161 | the header does not depend on the second extra nonce the work data was prepared with |
| `BruteForce.TimestampMoves` | device_opencl.go:319-322 | d seconds after the work arrived the timestamp is the job's plus d, as words and as numbers modulo 2^32 |
| `BruteForce.HeaderBytes` | device.go:150-160 | bytes 136 to 152 of a header are the timestamp, the nonce, the two extra nonces and the device byte, little-endian, and all others the work's |
| `BruteForce.AssessingHits` | device_opencl.go:336-348 | assessing the reported nonces finds every winner and counts every share there is below the work size |
| `BruteForce.WinnersInOrder` | device.go:177-198 | the winners are the headers of an increasing list of nonces: those whose header hashes below 2^224 and within limit and target |
| `BruteForce.SharesInOrder` | device.go:170-186 | there is one share for each nonce whose header hashes below 2^224 and within the limit, whatever the target and the mode |
| `BruteForce.SearchIsBruteForce` | device.go:163-198 | with target or PowLimit below 2^224 the search keeps exactly the nonces that meet the target; above, it does unless some nonce that meets it hashes to 2^224 or more |
| `BruteForce.WinnersDistinct` | device_opencl.go:336-348 | no header is sent twice from one launch, not even with other bytes after the 180 hashed |
| `BruteForce.HeaderFields` | device.go:103-114 | a tried header carries its nonce, both extra nonces and the device byte in their places |
| `MissedHeader.ZeroWorkIsTimed` | miner.go:81-87 | the work item that is zero but for its timestamp is one `onSoloWork` makes: its job time is the timestamp word of its data |
| `MissedHeader.ZeroHash` | device.go:161-175 | for that work item, zero but for its timestamp and launched in the second it arrives, the header of nonce 0 hashes to at least 2^224 and less than 2^225: its twenty-one rounds are worked out |
| `MissedHeader.HeaderMissed` | blake3.cl:143-155 | with target and PowLimit of at least 2^225-1, that header meets the target and is never kept, whatever the work size |
| `MissedHeader.BruteForceExactly` | device.go:177-198 | on a network whose PowLimit is 2^k-1 every search of one nonce or more is brute force exactly if k is at most 224 |
| `ExtraNonce.RollingAddsOne` | util/util.go:17-25 | a roll adds one to the low 24 bits modulo 2^24 and keeps the top byte |
| `ExtraNonce.AfterRolls` | util/util.go:17-25 | k rolls add k to the low 24 bits modulo 2^24 and keep the top byte |
| `ExtraNonce.RollsDistinct` | util/util.go:17-25 | the values after j and k rolls are the same exactly if j and k agree modulo 2^24 |
| `ExtraNonce.InitialTopByte` | device.go:69-70 | the top byte a device starts with is its index plus the process offset, modulo 256 |
| `ExtraNonce.InitialLow24` | device.go:69-70 | its low 24 bits are those of the random word |
| `ExtraNonce.DeviceByteValue` | device.go:69-70 | the device byte is the index plus the offset modulo 256 |
| `ExtraNonce.DeviceByteShared` | device.go:69-70 | two devices share that byte exactly if their indices agree modulo 256 |
| `Fleet.LaunchesRoll` | device_opencl.go:315-317 | the k-th launch of a run carries the second extra nonce rolled k+1 times, whatever work arrived in between |
| `Fleet.NoHeaderTwice` | device.go:58-70 | for any scripts of work, two equal 180-byte headers come from the same device, launch and nonce, if device indices differ modulo 256 and no device makes more than 2^24 launches |
| `Fleet.SeparationEnds` | device.go:111-113 | both device bytes coincide exactly for indices equal modulo 256, and the extra nonce comes round after 2^24 launches |
| `Fleet.DevicesRepeat` | device.go:111-114 | two devices with indices equal modulo 256 try the same 180 bytes if they draw the same random words and are given the same |
| `Fleet.DevicesApartExactly` | device.go:111-114 | of two devices of one process some runs, of at most 2^24 launches each, try the same 180 bytes exactly if the devices' indices agree modulo 256 |
| `Fleet.LaunchesRepeat` | util/util.go:17-25 | a device's launches on the same work at the same time try the same 180 bytes exactly if they are a multiple of 2^24 apart |
| `Device.Device.InitNonces` | device.go:39-75 | the nonces a device starts from, for any random bytes: the device byte above the low 24 bits of the second word |
| `Device.Device.UpdateCurrentWork` | device.go:77-126 | taking up work leaves data, midstate and last block in agreement with that item; without new work nothing changes |
| `Device.Device.Prepare` | device.go:101-114 | the data is the item's with both extra nonces and the device byte filled in, and otherwise unchanged |
| `Device.Device.Fold` | device.go:116-118 | two calls of Block compute the midstate of the first 128 bytes |
| `Device.Device.Unpack` | device.go:121-124 | the last block is the words of bytes 128 to 191 |
| `Device.Device.SetKernelArgs` | device_opencl.go:369-404 | arguments 1 to 8 are the midstate, 9 to 20 the first thirteen words of the last block without the nonce |
| `Device.Device.RunKernel` | device_opencl.go:406-434 | the host's copy of the buffer lists exactly the surviving nonces |
| `Device.Device.Rebuild` | device.go:153-160 | the rebuilt bytes are the data with the candidate's four words |
| `Device.Device.FoundCandidate` | device.go:150-199 | by the number its header hashes to: from 2^224 on a mismatch is counted, below it and within the limit a share is, and within the target too, outside benchmark mode, the header is sent |
| `Device.Device.RolloverExtraNonce2` | util/util.go:19-25 | the field is rolled once: one more in the low 24 bits modulo 2^24, the top byte kept |
| `Device.Device.StampBlock` | device_opencl.go:315-322 | the last block carries the rolled extra nonce and the job's time moved on by the seconds since the work arrived, and device state agrees with the work at the launch |
| `Device.LaterByValue` | device_opencl.go:319-321 | that time is the job's plus the clock less the arrival, modulo 2^32 |
| `Device.AgreesAtLaunch` | device_opencl.go:307-324 | at a launch the midstate is that of the work's 128 bytes and the block is the work's with the launch's two words |
| `Device.Device.AssessCandidates` | device_opencl.go:333-348 | with the count clamped, every reported nonce is assessed once in order: winners sent, shares counted, no mismatch |
| `Device.Device.MineOnce` | device_opencl.go:315-348 | one iteration sends exactly the launch's brute-force winners in order, counts its shares, and never raises hashMismatches |
| `Device.Device.TakeTurn` | device_opencl.go:306-363 | one turn with its receive, cancellation check, failing call and idling: when it launches, what it sends, and when and how the loop ends |
| `Device.Device.RunDevice` | device_opencl.go:286-364 | over every finite run the device makes exactly the script's launches, sends exactly their winners, launch by launch, and reports failure exactly if a failing call ended the loop |
| `Device.LaunchInTurn` | device_opencl.go:305-322 | the k-th launch of a run is made in its k-th turn, on the last item received by then, at the time its clock shows |
| `Device.LaunchesEnd` | device_opencl.go:306-363 | a run makes a launch in every turn before the first in which the context is done, a call fails or the idling is cut short, and fails exactly if that was a failed call |
| `WorkSource.Reverse` | util/util.go:8-15 | the loop's result is the reversal of its input |
| `WorkSource.ReversedIsBigEndian` | miner.go:74-76 | reading the reversed target big-endian is reading the target little-endian |
| `WorkSource.OnSoloWork` | miner.go:70-87 | the work item's data is the node's, cut or zero-filled to 192 bytes, its target the little-endian number, its job time the timestamp word |
| `MinerState.ControlInvHolds` | miner.go:427-473 | on every reachable state a source hands out work exactly while its thread is at it, and threads run only once Run has started them |
| `MinerFatal.FlagsStick` | miner.go:226-227 | no step of any thread revives a done context or clears the fatal flag |
| `MinerFatal.FatalInvHolds` | miner.go:221-229 | on every reachable state the flag is set exactly if the run is cancelled or the setter's next step cancels it |
| `MinerFatal.RunReportsFatal` | miner.go:467-472 | in every interleaving Run returns only with its context done and every thread gone, with an error exactly if the flag was ever set, and without one only if its caller's context was done |
| `MinerFatal.FatalCancels` | miner.go:392-399 | a set flag has cancelled, or one enabled step of the setting thread does |
| `MinerShares.SharesConserved` | miner.go:199-231 | on every reachable state everything sent is, in order, what was answered, what is in hand and what is queued; Status's counts sum to the answered; each device's shares are there once each in its order; every assessed candidate is a mismatch, above PowLimit or a share |
| `MinerShares.AnswersCounted` | miner.go:207-217 | over every run the valid count is the number of shares the node accepted so far, and the invalid count the number it did not |
| `MinerShares.ReadBackFollowsAnswer` | miner.go:207-221 | over every run a block can be read back exactly when the last thing the submit thread did was to have a share accepted |
| `MinerShares.BenchmarkSendsNothing` | device.go:188-198 | in benchmark mode nothing is ever sent or answered |
| `MinerShares.PayeeCheckedOnce` | miner.go:242-268 | payeeChecked is set exactly if an earlier step read back a coinbase that pays a non-empty script, and at most one step does |
| `MinerShares.WrongPayeeEndsMining` | miner.go:221-229 | once the block of a share the node has just accepted is read back and does not pay the script, nothing is submitted again and a run that returns returns an error |
| `MinerShares.PayeeStep` | miner.go:242-268 | which step sets payeeChecked, that one step only condemns the submit thread, and that a condemned one only goes on to its end |
| `MinerShares.ScanCoinbase` | miner.go:482-498 | the scan answers whether some output of the first transaction pays the script, and never for an empty script or a block without transactions |
| `MinerShares.FoldsToScript` | miner.go:492-496 | for a script without upper-case letters an output matches exactly if it is the script with some letters in upper case |
| `MinerExpiry.ThirdFailureIsFatal` | miner.go:336-353 | over every run failures is the length of the run of failed polls the history ends with, at most three; at three the flag is set or set by the next step, and only then does the expiry thread set it |
| `MinerExpiry.PollsRecorded` | miner.go:336-355 | over every run the poll history is that of the polls answered and of those that failed while the context was live |
| `MinerExpiry.OnlyAnAnswerForgives` | miner.go:315-355 | no step but an answered poll lowers the count, and that one clears it |
| `MinerExpiry.FailuresAddUp` | miner.go:315-355 | between answered polls failures add up, whatever is published and however many ticks find the work fresh |
| `MinerExpiry.GiveUp` | miner.go:305-379 | with nothing published, ticks a minute apart and polls failing within 30 seconds, the third failure comes at a work age above 17 minutes and at most 18 minutes 30 seconds, exactly if ticks go on past 17 minutes; work that was never received does not go stale |
| `MinerReasons.CondemnedForAReason` | miner.go:345-353 | over every run the flag is set, or a thread about to set it, exactly if a block was exposed, a third poll in a row had failed, or the node's exit was noticed |
| `MinerReasons.FailsForAReason` | miner.go:469-473 | so Run reports an error exactly for one of these three |
| `MinerReasons.ThreadsStay` | miner.go:427-467 | over every run no thread ends while its context is live, but a device whose OpenCL call failed and the two that benchmark mode does without |
| `MinerReasons.PrinterIsHeldUp` | device.go:212-232 | the printer cannot read the rate of a device that is sending, which holds its lock |
| `MinerDelivery.WorkDelivered` | miner.go:89-95 | on every reachable state queues hold at most five; while a source cannot give up each device has had exactly the first so many of its items in order, an earlier-listed device leading a later one by at most one; afterwards in order still; and outside benchmark mode what a device has taken up was once the current work |
| `MinerDelivery.NoLaunchWithoutWork` | device.go:77-98 | no device gets to a launch before it has taken up work |
| `MinerDelivery.DeliveryInvKept` | device.go:201-206 | every step of every thread keeps all of that |
| `MinerDelivery.CurrentIsLatest` | miner.go:80-95 | the current work is the last item issued, every item of every source has been it, in order, and benchmark mode has none |
| `MinerDelivery.GivesUpWith` | device.go:201-206 | the callback and NewMiner wait for a device as long as the caller's context is live, the expiry thread as long as the run's is |
| `MinerDelivery.NoPollWithoutWork` | miner.go:316-321 | the expiry thread polls only after there has been work |
| `MinerDelivery.DeadDeviceStallsTheRest` | device.go:201-206 | once a device has ended, no later-listed device gets more of a source's items, as long as the source cannot give up, than the dead one had taken up and five; and the source issues at most one more, so the expiry thread stops polling |
| `MinerHeaders.AssessmentsWin` | device_opencl.go:336-348 | the candidates below the target among a launch's reported nonces are its winners |
| `MinerHeaders.HeadersSent` | device.go:170-198 | over every run in which launches report their hits, what a device has sent and still means to send are exactly the winners of its launches, in order, each launch on work that had been the current work |
| `MinerHeaders.SubmittedHeadersWin` | miner.go:199-231 | every header answered, in hand or queued is a winner of a launch by the device that found it, on work that had been the current work |
| `MinerHeaders.NothingSubmittedTwice` | device.go:58-70 | in every interleaving, with indices distinct modulo 256 and at most 2^24 launches a device, the node is never sent the same 180 bytes twice |
| `MinerCounts.SharesCounted` | device.go:170-186 | over every run in which launches report their hits, benchmark mode or not: no candidate disagrees with the kernel, those assessed and still to be are the launches' hits, and those counted as shares and still to be are the launches' shares |
| `MinerShutdown.EveryStepCounts` | miner.go:427-467 | once the context is done every step of a thread lowers a natural-number measure, and the outside world raises it by at most the number of devices plus three |
| `MinerShutdown.ShutdownIsBounded` | miner.go:427-467 | so from any such state the threads take at most that many steps |
| `MinerShutdown.AtMostOneLateLaunch` | device_opencl.go:306-313 | a device launches at most once after the context is done |
| `MinerShutdown.OneMoreLaunchAtMost` | device_opencl.go:306-313 | from any moment at which the context is done a device makes at most one launch more |
| `MinerShutdown.NothingElseBlocks` | device.go:188-198 | a run with a done context can always go on, unless the submit thread is gone and a device is sending to a full channel |
| `MinerShutdown.DemandStays` | device.go:188-198 | once no device is on a launch, queued plus still-to-be-sent shares never grow, and stay the same once the submit thread is gone |
| `MinerShutdown.RoomReturns` | miner.go:427-467 | with room in the channel for all of them the run can go on until it returns |
| `MinerShutdown.NoRoomNeverReturns` | miner.go:202-205 | without room and without the submit thread it never returns |
| `MinerShutdown.ReturnsIffRoom` | device.go:196 | so a run that can do nothing more has returned exactly if there was room when the submit thread went |
| `MinerHang.UntakenWinners` | device.go:170-198 | over every run in which launches report their hits, what the channel holds and the devices still mean to send is as many as the winners found less those the submit thread has taken |
| `MinerHang.FewWinnersReturn` | main.go:109 | once the context is done, a run whose launches have at most ten winners more than the submit thread has taken can go on until it returns |
| `MinerHang.ReturnsIffFewLeft` | miner.go:199-206 | so a run that can do nothing more has returned exactly if at most ten winners were left untaken when the submit thread went |
| `MinerHang.HangIsReachable` | device.go:150-198 | for any launches one device can make one after another, on any work at any time and with more than ten winners in all, there is a run that makes them, reports exactly their hits, and is left without room |
| `MinerHang.DeadlocksExactly` | device.go:188-198 | such launches can end in a run that is done, has not returned and cannot go on exactly if they have more than ten winners in all |
| `MinerStartup.SeederGoesOn` | device.go:201-206 | while NewMiner hands out its work item it can go on unless the next device's queue is full and the caller's context is not done |
| `MinerStartup.StartupHangs` | miner.go:176-197 | once that is so it stays so for as long as the caller's context is not done, whatever else happens: no thread is started |
| `MinerStartup.FewNotificationsStart` | miner.go:108-110 | with fewer than five notifications before Run, NewMiner can always go on |
| `MinerStartup.StartupHangIsReachable` | miner.go:108-110 | with five, on any work, a run of one device in which it cannot is reachable |
| `Throttle.IdleIsTheShare` | device.go:136-141 | the idling is the exact share rounded down while the product fits int64, none when it overflows once, and none at a duty cycle of 100 or more or of none |
| `Throttle.DutyCycleHeld` | device_opencl.go:353-362 | over any launches the busy share is at least the duty cycle and the idling falls short of its share by less than a nanosecond a launch |
| `Calibrate.CalcWorkSize` | calibrate.go:38-65 | at most 21 measurements, doubling from 2^10 to 2^30; every earlier one was below the target; the result is the ideal size for the last, or its error; what the machine converts out of range is left open |
| `Calibrate.IdealIsSmallestSufficient` | calibrate.go:54-59 | the scaled size is the smallest sufficient multiple of 256 exactly if one fits in 32 bits |
| `Calibrate.CalibrationBound` | calibrate.go:38-65 | for a positive target the result r is positive with (r-256)*exec < w*target <= r*exec exactly if exec reached the target or 2^22*target <= (2^24-1)*exec; it is always a multiple of 256, and at most w in the first case |
| `Calibrate.CalibrationCanWrap` | calibrate.go:56-59 | at the largest size a launch taking a quarter of the target leaves a work size of zero |
| `Calibrate.CalibrationEndsWithZero` | calibrate.go:38-65 | when every launch takes a quarter of the time to achieve, the search can only end with a work size of zero |
| `Calibrate.CheckWorkSizes` | config.go:276-307 | a list is accepted exactly if every entry is a multiple of 256 and not of 2^32, negative ones included, for it is cut to 32 bits first |
| `Calibrate.CheckIntensities` | config.go:265-274 | accepted exactly if all are within 8 to 31 |
| `Calibrate.ChooseWorkSize` | device_opencl.go:239-281 | an explicit work size wins over an intensity, calibration comes last, the entry at the device's position overrides the first, and every size is a multiple of the local size 64 below 2^32 |
| `Text.SplitJoin` | devices.go:124 | joining fields without the separator and splitting them gives the fields |
| `Text.AtoiOfItoa` | devices.go:122 | a printed index reads back as itself if it fits int64 |
| `Text.TrimSpaceTakes` | config.go:116 | trimming takes spaces only, at both ends, and all of them |
| `Text.TrimPadded` | config.go:116 | text that neither begins nor ends with a space comes out of any padding |
| `Text.AtoiReads` | config.go:116-121 | digits read as their number if it fits int64, with a plus sign as well, and with a minus sign as its negative |
| `Text.AtoiNeedsDigits` | config.go:116-121 | nothing else reads as a number |
| `Text.DecimalIs` | config.go:116 | digits are to the base ten |
| `Settings.ParseInts` | config.go:112-124 | the loop yields the integers of all the fields, or fails if one is none |
| `Settings.ParseDeviceChoice` | devices.go:18-35 | the answer's indexes, all within range and at least one, or an error |
| `Settings.NewMinerDevs` | device_opencl.go:436-467 | the loops over platforms and devices build the named devices of the whole enumeration, with index and position; an error if the platforms, one of their lists or one named device fails, and only then |
| `Settings.FlatAt` | device_opencl.go:445-465 | a device's index is the number of devices on the platforms before its own plus its place there |
| `Settings.BuiltInOrder` | device_opencl.go:453-464 | devices are built in enumeration order, each once, with their names and consecutive positions |
| `Settings.BuiltAreTheNamed` | device_opencl.go:455 | exactly the named devices are built, or all if none is named |
| `Settings.PrintedReadsBack` | devices.go:117-124 | the saved list of indexes reads back as the same indexes |
| `Settings.PaddedReadsBack` | config.go:112-124 | printed indexes with any spaces around them read back as the same list |
| `Settings.FirstRunIsFixpoint` | devices.go:109-131 | for an unchanged enumeration the saved choice parses, and builds the same devices at the same positions, even if the answer was unsorted or repeated |
| `Settings.SavedAsGiven` | devices.go:117-124 | the choice is saved as typed exactly if it was strictly increasing |
| `Settings.File.AppendSetting` | payout.go:91-120 | the file holds what it held, a newline if its last line had none, and the text, or a call fails: opening, measuring or reading leaves what it held, and a failing write leaves a part of the new text after it; a missing file is created |
| `Settings.File.SaveDeviceChoice` | devices.go:117-131 | the appended text is a comment for each device and the devices line; a failing append leaves what the file held |
| `Settings.AppendedLines` | payout.go:91-120 | the file's lines are the old ones and the text's: nothing is glued to a last line |
| `Settings.SavedLines` | devices.go:117-131 | the saved choice is lines of its own, whatever the device names hold, the last of them devices= and the indexes |
| `Settings.OneCommentEach` | devices.go:119-123 | names without line breaks are one comment line each |
| `NodeConf.CheckMondConf` | node.go:96-123 | the file is accepted exactly if it is missing, or is readable, private and without an uncommented line that sets miningaddr or generate |
| `NodeConf.KeyLineOffends` | node.go:109-120 | a line that sets a key, indented or not and with spaces around the key or not, offends exactly if the key is miningaddr or generate, whatever the value |
| `NodeConf.OwnConfIsAccepted` | node.go:79-91 | the file rendered by monvark from values without line breaks holds the five settings in order, and passes its check at the next start |
| `Lifecycle.Process.Connect` | node.go:287-339 | a client comes back only if some attempt found the node up and none before it found it gone; without an interrupt, exactly then |
| `Lifecycle.Process.WaitSynced` | node.go:395-434 | the wait ends well only if some poll reported the end of initial block download and all before it that it was going on; without an interrupt, exactly then |
| `Lifecycle.Process.NodeStart` | node.go:200-282 | a node that was started but never answered is stopped here |
| `Lifecycle.Process.BringUp` | main.go:147-165 | the node's part of startup gets so far down its path, and has deferred Stop exactly if the node started and answered |
| `Lifecycle.Process.MonvarkMain` | main.go:30-176 | on every path the process goes some way down one fixed order of events, stops a started node exactly once and last of all, gives devices work only with a valid address on a node that came up and whose polls reported it synced, and exits with a failure exactly if its configuration did not load or no interrupt has come by the time Stop is over; a start mines exactly if nothing fails, unless it is interrupted, and one interrupted at once gets no further than its devices |
| `Lifecycle.SmoothMeans` | main.go:94-176 | what it takes for a start on which nothing fails |
| `Lifecycle.WholeTrace` | main.go:94-176 | the events of a run to the end, with a node and in benchmark mode, with a choice asked for and without |
| `Lifecycle.StoppedExactlyOnce` | main.go:154-159 | any number of events down the path, with the deferred Stop, a started node is stopped exactly once and last of all, and no other is |
| `Lifecycle.NothingMinedBeforeSync` | main.go:143-170 | outside benchmark mode no work flows before the payout address was validated, the node started, answered and reported itself synced; in benchmark mode no node is started |

## Left out

- The `cl` package and its loaders: foreign calls. `Device.Device.RunKernel` is their contract: clear the count, run the kernel, read the buffer back; a failing call is a choice of the script.
- Concurrent work items: the kernel's `output[++output[0]]` is not atomic. Launches are modelled one id after another, and the condition that a launch has at most 63 hits is a hypothesis (`AllFit`); the host's clamp of the count is modelled.
- Kernel.Search: cannot say what a write past the buffer does, so it requires room for the candidate.
- Kernel.EnqueueNDRange: for the same reason, launches with fewer than 64 survivors.
- Device.Device.RunKernel: requires a launch to have fewer than 64 hits (`AllFit`), as the 64-word buffer does.
- Device.Device.AssessCandidates: requires a launch to have fewer than 64 hits (`AllFit`), as the 64-word buffer does.
- Device.Device.MineOnce: requires a launch to have fewer than 64 hits (`AllFit`), as the 64-word buffer does.
- Device.Device.TakeTurn: requires its launch to have fewer than 64 hits (`AllFit`), as the 64-word buffer does.
- Device.Device.RunDevice: requires every launch to have fewer than 64 hits (`AllFit`), as the 64-word buffer does.
- `rpcclient`, `stdaddr`, `go-flags` and the block hash: answers of the outside world, chosen freely; an ini file's keys are read back as the text after their equals sign.
- Random sources: arbitrary values; `initNonces` failing to read them is not modelled.
- Work delivery in class `Device.Device` is the script's receive; channels, the lock and aliasing between threads are in `MinerState` only, on values, since its steps interleave. A thread's step there is atomic between two points at which it can wait.
- A device step of `MinerState` leaves open which candidates a launch finds. `MinerHeaders` and `MinerHang` are about the runs in which they are the launch's hits, as they are proved to be for `Device.Device`.
- MinerHang.HangIsReachable: builds runs of one device, with at most 63 hits a launch (`CanLaunch`); which work has launches with that many winners is not computed.
- MinerHang.DeadlocksExactly: is about the same launches; `FewWinnersReturn` and `ReturnsIffFewLeft` are about any number of devices.
- MinerStartup.StartupHangIsReachable: builds a run of one device; the other results of `MinerStartup` are about any number.
- The callback's own blocking: a notification that finds a full queue waits for the caller's context, which a fatal run does not cancel. `OwnStep` leaves the callback out of the threads Run waits for.
- Calibrate.CalcWorkSize: exact rationals instead of float64, so rounding in the division is not captured.
- `resolvePayout` and `payoutAddress`: a validated address or an error is one answer of the outside world in `Lifecycle`; what they append is covered by `Settings.AppendedLines`.
- What `Stop` does to the node (its stop RPC or a signal, and the bounded wait) is one event.
- The failures inside `nodeStart` before the process starts are one answer; `mondArgs`, ports, credentials and paths add only easy facts.
- NodeConf.OwnConfIsAccepted: the heading is any list of comment lines, of which the source's four are one, and the values hold no line breaks.
- Lifecycle.Process.Run: is Run's contract as `MinerFatal.RunReportsFatal` proves it, not the threads again.
- The paths that leave `loadConfig` through os.Exit (version and device listing), the profiler, logging, prompts, terminal detection, the HTTP monitor, hash-rate formatting and address normalisation: I/O, display, or easy facts.
- `sameTemplate`: only chooses a log message.
- `EqualFold` folds ASCII letters, which is all that a lower-case hex script can match.
