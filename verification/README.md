# Verification of the BLE transmit path and the ADC-to-DAC path

This project models three cooperating state machines of the firmware and proves what they keep
over every run:

- the **transmit path**: a byte queue is cut into notifications of at most 20 bytes, each in one
  of N pool buffers that wander between a free queue, the function's hands, one pending slot and
  an in-use queue, while the SoftDevice refuses packets, completes them and reports that the
  peer switched notifications on or off;
- the **sample path**: an ADC interrupt separates two channels into a pool of five slots and
  raises a one-bit flag; the main loop averages a slot and queues a DAC word; a chain of TWI
  transfers, continued by its own completion interrupt, empties that queue;
- the **DAC device**: packing of its command frames, decoding of its read frame, and the start-up
  loop that reads, writes and polls its non-volatile memory.

Each machine is modelled twice. The modules `CommSpec`, `DacSpec` and `AdcSpec` describe it as a
transition system whose steps are single statements of the main-loop function, with interrupts
between any two of them, and as whole functions; lemmas connect the two. The classes
(`BleComm.Comm`, `Dac.Dac`, `AppLogic.App`, `NrfQueue.Queue`, ...) are the code as it is, with
fields and arrays updated in place, and every method is proved to compute the whole function of
the transition system. `Pipeline` composes the two halves of the sample path, and
`SampleSystem.System` ties the objects to it.

`dafny verify dfyconfig.toml` checks everything.

## Assumptions about the environment

- An interrupt handler runs to its end between two steps of the main loop. A step is a statement;
  a call that takes the pending pointer is two, the evaluation of its argument and its effect. The
  operations of nrf_queue.c are atomic because of their critical regions.
- `BLE_COMM_send_data` and `BLE_COMM_tx_process` are called from the main loop only.
- NOTIFICATION_ON does not fall on one of four points of `BLE_COMM_tx_process`: the call of hvx for
  a new chunk, the marking of the buffer it took, the assignment that keeps a refused one as
  pending, and inside the call that marks the pending buffer (line 70), after its argument has been
  evaluated. If it falls inside the call that offers the pending buffer (line 67), the SoftDevice
  refuses that call. `CommResets.ResetExact` shows that from the four points, and from no other,
  the ownership of the buffers is broken when the interrupted call ends, and says exactly when the
  stream is;
  `BreakingRuns` gives a run to each for every pool. Anywhere else the code recovers, except that
  hvx may have been given a NULL pointer (below).
- TX_COMPLETE events may come at any time, whatever packets they complete. Results that hold for
  some events only (one for each packet, not in the marking window) say so.
- The SoftDevice completes packets in the order it accepted them, and completes none any more when
  the link is lost (the event `Drop`, which touches no variable of the program).
- The completion of a TWI transfer does not come between `nrf_drv_twi_tx` and the assignment of
  the flag (modules/dac/dac.c:147-149). `DacTheorems.WindowExact`, `StuckForever` and
  `StuckReachable` say what happens otherwise.
- The converter delivers an even number of 10-bit samples, at least one per channel.
- Answers of `sd_ble_gatts_hvx`, `nrf_drv_twi_tx` and `nrf_drv_twi_rx` are parameters; nothing is
  assumed about them, nor about the acknowledgement of a transfer. What was carried and received is
  recorded in ghost logs.
- A pointer into a pool is a row number (notification buffers) or a byte offset (ping-pong
  buffers). The event that the UART service passes to its data handler is returned to the caller,
  which delivers it before anything else happens.

## What the code does that one would not expect

- `DAC_update_dac` can report a failure although nothing failed: when all outstanding transfers
  complete between its push and its test of the flag, it finds the queue empty
  (modules/dac/dac.c:154-157), and the application stops sampling for good. The value has been
  transmitted. `DacTheorems.SpuriousFailureExact` gives the exact condition;
  `PipelineStop.StoppedUnrefusedExact`, `OvertakenExact` and `StopsUnrefused` give condition and run
  for the whole sample path.
- A TX_COMPLETE that comes before the accepted buffer is pushed on the in-use queue can be lost, and
  its buffer is then never freed; the number of packets in a BLE_EVT_TX_COMPLETE is ignored, and
  each packet beyond the first strands a buffer as well (`CommCompletions.BatchesStrand`, and
  `BatchStrands` for a run). But in no run all of two or more buffers are stranded
  (`NeverAllStranded`), so sending never stops for good (`NoStarvation`); with a pool of one buffer
  a single lost event stops it (`OneBufferStarves`).
- The completion of a packet sent before notifications were switched on again frees a buffer that
  the SoftDevice still holds (`CommCompletions.ReuseReachable` for every pool;
  `ForeignCompletionExact` is the exact condition).
- When NOTIFICATION_ON falls between the test of the pending pointer and its evaluation for the call
  of hvx, hvx gets a NULL pointer and sends whatever the attribute holds
  (`CommResets.NullReachable`, `NullNeedsReset`). When it falls inside that call, hvx gets the bytes
  of the old epoch. The stream results are about the packets sent from buffers.
- A word whose transfer is not acknowledged is not sent again, and `DAC_update_dac` has reported
  success (modules/dac/dac.c:187-191). `Pipeline.ReceivedExact` says that nothing is lost exactly
  when every transfer was acknowledged; `PipelineStop.NackLosesWord` gives a run.
- The one-bit flag never deadlocks, but a batch left behind because two callbacks fell on one
  wake-up is never caught up on (`AdcTheorems.BacklogNeverShrinks`, `BacklogArises`).
- The slot addresses of `PP_BUFFERS_reset` are right exactly for one column or one row
  (`PingPong.LayoutExact`); the firmware uses one column.
- `MCP47x6_prepare_write_mem` loses bit 0 of the reference and of the power-down setting; the
  exact condition is `Mcp47x6.MemSettingsExact`.
- `MCP47_1_2_6_decode_read` stores the non-volatile data word over the volatile one and only shifts
  the non-volatile field (`Mcp47x6.ReadData.Decode` states it as it is).
- A configured sample count of zero is not rejected by `ADC_init`, and then the averaging divides
  by zero, in every batch (`AdcTheorems.DivisorZeroExact`, `SummedDivides`).
- In the second round `verify_dac_config` may write the memory once more and still report failure,
  because nothing reads it again (`DacConfig.VerifyDacConfig`, `SlowDeviceFails`).

## Model

| member | source | states |
|---|---|---|
| CommTheorems.StreamRefinement | modules/comm/ble_comm.c:48-145 | in every run of single steps, refusals and interrupts, resets anywhere but at the points named above: accepted payloads, then the bytes in hand, then the byte queue are exactly the data of the calls of `BLE_COMM_send_data` that answered success since NOTIFICATION_ON; between calls the bytes in hand are the pending buffer's |
| CommTheorems.OwnershipUnderPreemption | modules/comm/ble_comm.c:61-132 | at every statement of every run the free queue, the in-use queue and the buffer held or pending are a permutation of the pool, so no push on either queue can fail except one that would give back a buffer a reset has given back already |
| CommTheorems.PayloadStability | modules/comm/ble_comm.c:83-107 | the row behind an accepted packet is not free and holds the bytes hvx was given until a TX_COMPLETE frees it |
| CommResets.ResetExact | modules/comm/ble_comm.c:133-139 | when the call interrupted by a NOTIFICATION_ON has ended: ownership is broken exactly if it fell on one of four points; the stream exactly if it found a chunk read and not yet offered or kept, or fell inside the offer of the pending buffer and that was accepted; hvx took a NULL pointer exactly if it fell between the test and the evaluation of the pending pointer and the call was accepted |
| CommResets.BreakingRuns | modules/comm/ble_comm.c:65-108 | for every pool, a run to each point at which a reset does harm, and what is broken after it |
| CommResets.NullNeedsReset | modules/comm/ble_comm.c:65-67 | in any run the SoftDevice takes a NULL pointer only after a NOTIFICATION_ON between the test of the pending pointer and its evaluation for the call |
| CommResets.NullReachable | modules/comm/ble_comm.c:65-67 | for every pool, a run in which it does |
| CommResets.ReadFailureExact | modules/comm/ble_comm.c:79-95 | the give-back branch runs exactly when a NOTIFICATION_ON came between the read of the queue's length and the read of its bytes, whatever else came in between |
| CommCompletions.StrandedBound | modules/comm/ble_comm.c:124-132 | over any run of any number of epochs, the buffers of completed packets that were not freed number at most one plus the packets that events counted beyond the first |
| CommCompletions.AtMostOneStranded | modules/comm/ble_comm.c:124-132 | over any run with one event for each packet, of any number of epochs, at most one buffer is stranded, although an event can find the in-use queue empty |
| CommCompletions.BatchesStrand | modules/modified_ble_nus/ble_nus.c:138-145 | within an epoch an event that counts n packets strands exactly n - 1 buffers |
| CommCompletions.BatchStrands | modules/modified_ble_nus/ble_nus.c:138-145 | for every pool of two or more, a run whose one event counts two packets and strands a buffer |
| CommCompletions.NeverAllStranded | modules/comm/ble_comm.c:124-132 | over any run, whatever the events count and whenever they come, at most all but one of two or more buffers are stranded |
| CommCompletions.CompletionFreesOldest | modules/comm/ble_comm.c:124-132 | with nothing lost and outside the marking window, event number k of an epoch frees the buffer of packet k, in order, and the in-use queue is the list of the others |
| CommCompletions.CompletionOrder | modules/comm/ble_comm.c:66-132 | over whole runs of any number of epochs with no more events than packets and none in the marking window, the in-use queue is the list of this epoch's packets without as many as events have come |
| CommCompletions.InFlightNotFree | modules/comm/ble_comm.c:124-132 | while freed buffers have not run ahead of completed packets, no buffer the SoftDevice still holds is in the free queue |
| CommCompletions.ForeignCompletionExact | modules/comm/ble_comm.c:124-132 | in any run no buffer the SoftDevice still holds is ever in the free queue exactly when no event that completes nothing of the current epoch finds a buffer in use and none stranded |
| CommCompletions.ReuseReachable | modules/comm/ble_comm.c:124-139 | for every pool, a run in which one does, and the buffer of a packet in flight is free |
| CommCompletions.NoStarvation | modules/comm/ble_comm.c:61-115 | after any run with two or more buffers, once all packets are completed, the next accepted call sends whenever there is something to send |
| CommCompletions.OneBufferStarves | modules/comm/ble_comm.c:97-101 | with a pool of one there is a run after which no event is owed and no run sends what is queued until notifications are switched on again |
| CommTheorems.Progress | modules/comm/ble_comm.c:79-107 | each accepted call moves bytes from pending buffer and queue to the SoftDevice one for one, and strictly lowers what is left exactly when it sent |
| CommTheorems.DrainSlices | modules/comm/ble_comm.c:79-107 | with everything accepted and enough buffers, call number k sends the k-th 20-byte slice of the queue, the last one possibly shorter |
| CommTheorems.DrainCount | modules/comm/ble_comm.c:79-107 | a queue of n bytes is empty after ceil(n/20) calls and not before |
| CommTheorems.PayloadsFit | modules/modified_ble_nus/ble_nus.c:343-346 | in every run each notification sent holds 1 to 20 bytes, the ATT_MTU - 3 limit, so that guard never fires |
| CommTheorems.UninterruptedIsTxProcess | modules/comm/ble_comm.c:61-115 | the steps of `BLE_COMM_tx_process` without interrupts are the whole function, at most twelve after the test of the flag, with notifications on or off |
| CommTheorems.NothingDone | modules/comm/ble_comm.c:61-115 | with notifications off, the pending buffer refused, or nothing to send or no free buffer, a call changes nothing |
| CommTheorems.TxProcessKeepsInv | modules/comm/ble_comm.c:61-115 | whole calls keep ownership, order, stability and the stream equation |
| CommProofs.NotificationOnExact | modules/comm/ble_comm.c:133-139 | the reset re-establishes the whole invariant exactly when it does not fall on one of the four exposed points |
| CommProofs.PushesSucceed | modules/comm/notification_buffers.c:42-64 | no statement and no interrupt pushes on a full buffer queue, except to give back a buffer a reset has freed already |
| CommProofs.RunKeepsInv | modules/comm/ble_comm.c:48-145 | every allowed run keeps the invariant |
| CommProofs.FetchKeepsStable | modules/comm/ble_comm.c:83-95 | the only write into the pool goes to a row that no unfreed packet uses |
| BleComm.Comm.constructor | modules/comm/ble_comm.c:32-42 | all buffers free, nothing queued, nothing pending |
| BleComm.Comm.SendData | modules/comm/ble_comm.c:48-59 | success exactly when notifications are on and the data fits into 256 bytes, and then exactly the data is appended; invalid state exactly when they are off; any other answer changes nothing |
| BleComm.Comm.SendPendingBuffer | modules/comm/ble_comm.c:65-76 | the pending buffer becomes in use exactly when both the guard and the SoftDevice accept it |
| BleComm.Comm.FetchChunk | modules/comm/ble_comm.c:79-95 | the first min(20, n) bytes leave the queue for the row of the first free buffer, and no other row changes |
| BleComm.Comm.CopyToRow | modules/comm/ble_comm.c:89-89 | the bytes replace the start of one row of the pool |
| BleComm.Comm.OfferChunk | modules/comm/ble_comm.c:97-108 | the buffer becomes in use when accepted and pending otherwise |
| BleComm.Comm.TxProcess | modules/comm/ble_comm.c:61-115 | the update in place computes the function the run-level results are about, keeps the invariant, and changes nothing when there is nothing to do |
| BleComm.Comm.NusDataHandler | modules/comm/ble_comm.c:117-145 | NOTIFICATION_ON empties the byte queue, frees all buffers and clears the pending one; TX_COMPLETE moves the oldest buffer in use to the end of the free queue; NOTIFICATION_OFF only switches off; received data changes nothing |
| BleComm.HandledIsNext | modules/comm/ble_comm.c:117-145 | the handler is the interrupt of the statement machine, wherever it falls |
| NotificationBuffers.NotifBuffers.Reset | modules/comm/notification_buffers.c:20-32 | afterwards the free queue holds every buffer once, in order, and none is in use; the refill cannot fail |
| NotificationBuffers.NotifBuffers.GetFreeBuffer | modules/comm/notification_buffers.c:34-40 | takes the oldest free buffer, and fails exactly when there is none |
| NotificationBuffers.NotifBuffers.SetFreeBuffer | modules/comm/notification_buffers.c:42-48 | appends, or leaves everything alone when full |
| NotificationBuffers.NotifBuffers.GetInUseBuffer | modules/comm/notification_buffers.c:50-56 | takes the oldest buffer in use, and fails exactly when there is none |
| NotificationBuffers.NotifBuffers.SetInUseBuffer | modules/comm/notification_buffers.c:58-64 | appends, or leaves everything alone when full |
| NrfQueue.RingAppend | nRF5_SDK_12.3.0_d7731ad/components/libraries/queue/nrf_queue.c:207-241 | a block copied behind the back index appends to the ring, wrapped or not |
| NrfQueue.Queue.Push | nRF5_SDK_12.3.0_d7731ad/components/libraries/queue/nrf_queue.c:78-140 | appends one element, and refuses exactly when `size` elements are queued |
| NrfQueue.Queue.Pop | nRF5_SDK_12.3.0_d7731ad/components/libraries/queue/nrf_queue.c:142-198 | takes or peeks at the oldest element, and fails exactly on the empty queue |
| NrfQueue.Queue.Write | nRF5_SDK_12.3.0_d7731ad/components/libraries/queue/nrf_queue.c:251-281 | appends all elements or none, in one or two block copies |
| NrfQueue.Queue.Read | nRF5_SDK_12.3.0_d7731ad/components/libraries/queue/nrf_queue.c:356-384 | takes the oldest `count` elements in order, or nothing when there are fewer |
| NrfQueue.Queue.Reset | nRF5_SDK_12.3.0_d7731ad/components/libraries/queue/nrf_queue.c:410-419 | empties the queue |
| BleNus.Nus.OnBleEvt | modules/modified_ble_nus/ble_nus.c:261-288 | TX_COMPLETE is reported exactly for that event and changes nothing; a connection sets the handle, a disconnection clears handle and flag and reports it; writes as in `OnWrite`; other events do nothing |
| BleNus.Nus.OnWrite | modules/modified_ble_nus/ble_nus.c:88-136 | a two-byte write to the CCCD sets the flag from bit 0 and reports it; a write to the value reports the data; anything else does nothing |
| BleNus.CccdIsOdd | modules/modified_ble_nus/ble_nus.c:98-98 | the flag is set exactly for an odd first byte |
| BleNus.Nus.StringSend | modules/modified_ble_nus/ble_nus.c:332-356 | refused without connection or notifications, refused beyond 20 bytes, else the SoftDevice's answer |
| BleStack.CopiesAgree | modules/ble_stack/ble_stack.c:334-339 | after every run of events the flag of ble_comm.c equals the flag of the service, and the two connection handles are equal |
| BleStack.GateExact | modules/modified_ble_nus/ble_nus.c:58-136 | the flag implies a valid handle at every moment of a run exactly when no write that enables notifications arrives outside a connection |
| BleStack.Stack.EvtDispatch | modules/ble_stack/ble_stack.c:334-339 | for each event of the SoftDevice what happens to the three copies of the connection state and to the communication module: a reset for an enabling write, the oldest buffer freed for TX_COMPLETE, switched off for a disabling write or a disconnection, nothing otherwise |
| BleStack.Stack.OnBleEvt | modules/ble_stack/ble_stack.c:236-249 | the handle follows connect and disconnect only |
| BleStack.Stack.IsCommEnabled | modules/comm/ble_comm.c:44-46 | behind an agreeing gate the answer says whether the guard of `ble_nus_string_send` would let a notification pass, and behind a sound one the flag alone says the same |
| BleStack.Stack.TxProcess | modules/modified_ble_nus/ble_nus.c:338-346 | behind a sound gate the guards of `ble_nus_string_send` never turn a call of `BLE_COMM_tx_process` away |
| DacTheorems.NoLostWakeUp | modules/dac/dac.c:129-217 | in every run: between calls the flag says IN_PROGRESS exactly when a transfer is outstanding, a transfer is never started on a busy bus, and if no start was refused a finished chain leaves an empty queue |
| DacTheorems.QueueConservation | modules/dac/dac.c:135-160 | in every run, refused starts included: values tried, in hand and queued are the values pushed, in order; values on the wire and in flight are the values started, in order; values received are those on the wire without the ones not acknowledged |
| DacTheorems.InFlightStable | modules/dac/dac.c:144-149 | no statement of the main loop changes the array behind the outstanding transfer |
| DacTheorems.DrainExact | modules/dac/dac.c:194-216 | with starts succeeding, exactly queue length + 1 completions are possible, acknowledged or not, the last and only the last ends the chain, and each takes the next value |
| DacTheorems.SpuriousFailureExact | modules/dac/dac.c:154-157 | with nothing refused the error branch is taken exactly when all outstanding transfers complete between the push and the test, and then the queue is empty anyway |
| DacTheorems.SpuriousFailureReachable | modules/dac/dac.c:154-157 | a run with two updates, both transmitted and nothing refused, whose second call reports a failure |
| DacTheorems.WindowExact | modules/dac/dac.c:147-149 | a completion inside the window leaves the flag right exactly when the handler started a further transfer |
| DacTheorems.StuckForever | modules/dac/dac.c:141-160 | after a completion that goes wrong in the window no run ever starts a transfer again |
| DacTheorems.StuckReachable | modules/dac/dac.c:147-149 | one untimely completion of the very first transfer gets there |
| DacTheorems.RunKeepsInv | modules/dac/dac.c:129-217 | every timely run keeps the invariant |
| DacSpec.UninterruptedIsUpdate | modules/dac/dac.c:129-163 | the statements of `DAC_update_dac` without interrupts are the whole function |
| Dac.Dac.UpdateDac | modules/dac/dac.c:129-163 | success exactly when the value fits into 50 and the chain is busy or the transfer starts; an idle chain sends the oldest value, a busy one only queues; the frame array holds the frame of what is sent; the invariant is kept |
| Dac.Dac.TwiEvtHandler | modules/dac/dac.c:182-217 | the oldest value is taken, its frame prepared and its transfer started; the chain ends, recording the event type, exactly when there is none or the start is refused; the ended transfer is logged with its acknowledgement |
| Dac.Dac.BytesOnTheBus | modules/dac/dac.c:198-205 | the bytes of the array behind the outstanding transfer decode to the word in flight |
| Mcp47x6.VolatileDacRoundTrip | drivers/mcp47x6/mcp47x6.c:18-40 | for all three devices the frame is recognised as a write of the volatile register and carries the masked value and the power-down bits |
| Mcp47x6.MemDataRoundTrip | drivers/mcp47x6/mcp47x6.c:76-98 | a memory write carries command and masked value, for all settings and devices |
| Mcp47x6.MemSettingsExact | drivers/mcp47x6/mcp47x6.c:78-81 | the settings survive a memory write exactly when bit 0 of the reference and of the power-down field is clear |
| Mcp47x6.VolatileCfgRoundTrip | drivers/mcp47x6/mcp47x6.c:50-55 | the configuration command carries all settings |
| Mcp47x6.FramesOnTheWire | modules/dac/dac.c:23-28 | the bytes of the DAC module's commands, written out |
| Mcp47x6.JoinedIsWord | drivers/mcp47x6/mcp47x6.c:121-135 | which bits of the two data bytes end up where |
| Mcp47x6.PrepareWriteVolatileDac | drivers/mcp47x6/mcp47x6.c:18-40 | the bytes written into the buffer are the frame of the round trip |
| Mcp47x6.PrepareWriteMem | drivers/mcp47x6/mcp47x6.c:76-98 | the bytes written into the buffer are the frame of the round trip; the 8-bit device's third byte is left alone |
| Mcp47x6.ReadData.Decode | drivers/mcp47x6/mcp47x6.c:57-140 | settings and ready bits of a six-byte frame, with the non-volatile word in the volatile field as the source has it; for the 8-bit device and for a frame of another length only the type changes |
| Mcp47x6.DecodeSettings | drivers/mcp47x6/mcp47x6.c:124-128 | the power-on-reset bit stored in the power-down field first does not survive |
| DacConfig.FrameStored | modules/dac/dac.c:267-270 | the write-all frame stores the intended settings and the code 409 in the device |
| DacConfig.NvByteDecodes | drivers/mcp47x6/mcp47x6.c:124-128 | the ready bit and the settings of a read frame are told apart |
| DacConfig.ElapsedAdds | modules/sys_time/sys_time.h:7-7 | the elapsed time is right across a wrap of the 32-bit tick |
| DacConfig.ReadBlocking | modules/dac/dac.c:166-179 | what is read is what the device shows, and nothing without an answer |
| DacConfig.CompareDacConfig | modules/dac/dac.c:259-265 | true exactly for the default settings |
| DacConfig.PollsWithinBudget | modules/dac/dac.c:275-288 | with a tick that moves by at least 5 at each delay, wrap-around included, the poll makes as many reads as the device needs or the delays leave time for, whichever is less |
| DacConfig.SteadyBudget | modules/dac/dac.c:275-288 | delays of exactly 5 leave time for 21 reads |
| DacConfig.Poll | modules/dac/dac.c:273-288 | never more reads than computed from the delays and the device's need before the call, exactly as many if all are answered, and success exactly when they suffice |
| DacConfig.WriteNvDacConfig | modules/dac/dac.c:267-293 | an answered write leaves the default settings and start-up value in the device; at most 21 reads follow; success exactly when they suffice for the programming |
| DacConfig.VerifyDacConfig | modules/dac/dac.c:239-257 | success means the settings read last are right; with all transfers answered it is reported exactly under a condition on the device before the call: right settings shown at once, new settings shown at once, or programming within the first poll (21 reads for steady delays), or the right settings hidden; and how often the memory is written |
| DacConfig.SlowDeviceFails | modules/dac/dac.c:239-257 | a device that needs 22 reads and hides its new settings meanwhile is given up although the write succeeded |
| Conversion.CodeError | modules/app_logic/app_logic.c:183-208 | for 1 to 10 samples of 0 to 1023 the transmitted code is at most the linear image of the true mean, summed up in exact arithmetic, and less than 4.7 below it |
| Conversion.SumOfParts | modules/app_logic/app_logic.c:186-189 | the sum of one number is that number, and sums of parts add up |
| Conversion.SumIsTrue | modules/app_logic/app_logic.c:186-189 | the running sum is the sum of all samples, taken from the other end |
| Conversion.MeanOfEqual | modules/app_logic/app_logic.c:186-197 | the mean of equal samples is that sample |
| Conversion.CodeOfEqual | modules/app_logic/app_logic.c:183-208 | equal samples v give the code v * 3600 / 1024 * 4095 / 5000 |
| Conversion.CodeMonotone | modules/app_logic/app_logic.c:183-208 | raising samples never lowers the code |
| Conversion.CodeFits | modules/dac/dac.c:20-20 | the code is at most 2945, so the 12-bit mask keeps it and the frame carries it |
| Conversion.MeanBounds | modules/app_logic/app_logic.c:186-197 | the truncated quotient of the sum is the floor of the mean and again a 10-bit value |
| Conversion.AverageMv | modules/adc/adc_module.h:45-51 | the voltage is not negative and at most 3596 mV, so it fits the 16-bit parameter |
| Conversion.MvToRaw | modules/dac/dac.c:20-20 | the 32-bit product does not wrap and the cast drops nothing, for any 16-bit voltage |
| PingPong.LayoutExact | modules/common/ping_pong_buffers.c:20-26 | all slots lie inside the pool exactly for one column or one row |
| PingPong.SlotsTile | modules/common/ping_pong_buffers.c:20-26 | for one column every byte of the pool belongs to exactly one slot |
| PingPong.Buffers.Reset | modules/common/ping_pong_buffers.c:15-28 | the free queue holds the slot addresses in order, and none is in use |
| PingPong.Buffers.GetFreeBuffer | modules/common/ping_pong_buffers.c:30-36 | takes the oldest free slot, and fails exactly when there is none |
| PingPong.Buffers.SetFreeBuffer | modules/common/ping_pong_buffers.c:38-44 | appends, or leaves everything alone when full |
| PingPong.Buffers.GetInUseBuffer | modules/common/ping_pong_buffers.c:46-52 | takes the oldest slot in use, and fails exactly when there is none |
| PingPong.Buffers.SetInUseBuffer | modules/common/ping_pong_buffers.c:54-60 | appends, or leaves everything alone when full |
| AdcModule.Clamp | modules/adc/adc_module.c:91-94 | at most ten samples per channel, smaller counts unchanged, and zero let through |
| AdcModule.BuffersAlternate | modules/adc/adc_module.c:143-165 | until the conversions are stopped, event number k reports buffer k mod 2 while the next conversion runs into the other one, and never reports more than a row holds |
| AdcModule.Adc.StartConv | modules/adc/adc_module.c:104-112 | a conversion of the clamped length runs into the first buffer |
| AdcModule.Adc.StopConv | modules/adc/adc_module.c:114-123 | no conversion is under way |
| AdcModule.Adc.EventHandler | modules/adc/adc_module.c:143-165 | the other buffer is being converted exactly unless stopped, and the finished one is reported, temperature first |
| AdcTheorems.NoDeadlock | modules/app_logic/app_logic.c:180-217 | wherever callbacks fall: a waiting consumer with the flag up finds a batch, with the flag down there is a free slot so that the next callback raises it, and line 214 is never reached |
| AdcTheorems.SlotsConserved | modules/app_logic/app_logic.c:119-205 | for any interleaving the free, queued and held slots are a permutation of the pool, and batches are taken in the order they were accepted, with their contents intact |
| AdcTheorems.BacklogNeverShrinks | modules/app_logic/app_logic.c:180-181 | the number of batches a waiting consumer leaves behind never goes down in any run |
| AdcTheorems.BacklogArises | modules/app_logic/app_logic.c:137-181 | a run of two callbacks and one wake-up that leaves a batch behind with the flag down |
| AdcTheorems.BacklogBounded | modules/app_logic/app_logic.c:119-140 | the backlog stays below the number of slots |
| AdcTheorems.AverageIsMean | modules/app_logic/app_logic.c:184-197 | in every run the average handed on is the mean of the batch taken last, which is one of those accepted |
| AdcTheorems.SummedDivides | modules/app_logic/app_logic.c:186-197 | in every run whose callbacks get what the ADC module reports, a batch that is summed is divided by zero exactly if a count of zero is configured |
| AdcTheorems.DivisorZeroExact | modules/adc/adc_module.c:91-94 | there is a run that divides by zero exactly when the configured sample count is zero, which the clamp lets through |
| AdcTheorems.RunKeepsInv | modules/app_logic/app_logic.c:97-217 | every run keeps slot ownership, order, contents and what the flag promises |
| AdcSpec.UninterruptedIsConsume | modules/app_logic/app_logic.c:180-217 | the statements of the consumer without interrupts are the whole function: n + 7 for a batch of n, one while the flag is down, three without a batch |
| AppLogic.Pool.CopyLoop | modules/app_logic/app_logic.c:122-129 | the loop stays in bounds, stores pair k from elements 2k and 2k+1, and writes no other row |
| AppLogic.Pool.CopySamples | modules/app_logic/app_logic.c:122-130 | one slot becomes the separated batch and all others keep theirs |
| AppLogic.Pool.Averages | modules/app_logic/app_logic.c:184-198 | the means of both channels, which for equal samples are that sample |
| AppLogic.App.constructor | modules/app_logic/app_logic.c:36-51 | all five slots free, the flag down |
| AppLogic.App.AdcSamplesCallback | modules/app_logic/app_logic.c:97-141 | with a free slot the oldest is filled with the separated channels and queued, all others are left alone and the flag is raised; without one nothing changes; the invariant is kept |
| AppLogic.App.TakeAverage | modules/app_logic/app_logic.c:180-205 | with the flag down nothing changes; otherwise it is cleared, the mean of the oldest batch handed on and its slot freed; the invariant is kept |
| Pipeline.SystemFifo | modules/app_logic/app_logic.c:119-217 | in every run of the composed system: received is the wire without the words not acknowledged, wire and flight are what was started, started and hand and queue are what was pushed, offered words are those of the batches taken, taken and queued batches are those accepted, all in order |
| Pipeline.LosslessFifo | modules/app_logic/app_logic.c:119-217 | while nothing is refused every batch delivered is in exactly one place from the wire back to the slots, in order |
| Pipeline.ReceivedExact | modules/dac/dac.c:182-217 | while nothing is refused the words received and those still behind are all that was delivered exactly when every transfer was acknowledged |
| PipelineStop.NackLosesWord | modules/dac/dac.c:187-191 | a run with nothing refused after which all work is done and the only word delivered was not received |
| Pipeline.EndToEnd | modules/app_logic/app_logic.c:183-208 | while nothing is refused and every transfer is acknowledged, the k-th word the DAC receives is the code of the k-th batch delivered, within 4.7 steps of the exact image, and exact for equal samples |
| Pipeline.NoDeadlock | modules/app_logic/app_logic.c:180-217 | the flag promises and the transfer flag hold in the composed system, with both interrupts |
| PipelineStop.StoppedExact | modules/app_logic/app_logic.c:208-212 | in any composed run sampling is stopped, or about to be, exactly when a push found the queue full, a start by the main loop was refused, or completions overtook an update |
| PipelineStop.StoppedUnrefusedExact | modules/dac/dac.c:141-157 | with nothing refused, exactly when completions emptied the queue between an update's push and its pop |
| PipelineStop.OvertakenExact | modules/dac/dac.c:135-157 | an update of a busy chain fails that way exactly when all queue length + 1 transfers complete between its push and its test of the flag, whatever samples come in meanwhile |
| PipelineStop.IdleNotOvertaken | modules/dac/dac.c:135-157 | an update of an idle chain never does |
| PipelineStop.StopsUnrefused | modules/app_logic/app_logic.c:208-212 | a composed run of two batches, nothing refused, after which sampling is stopped |
| Pipeline.UninterruptedIsHandle | modules/app_logic/app_logic.c:180-217 | the statements of consumer and DAC update without interrupts are one whole call of `handle_adc_samples`, whether or not the flag is up |
| Pipeline.HandleKeepsInv | modules/app_logic/app_logic.c:180-217 | whole calls keep the invariant of the composed system |
| SampleSystem.System.OnAdcEvent | modules/adc/adc_module.c:143-165 | the samples are stored as in `AdcSamplesCallback`, the DAC is left alone, and the next conversion runs into the other buffer |
| SampleSystem.System.OnTwiEvent | modules/dac/dac.c:182-217 | the objects take the completion step of the composed system |
| SampleSystem.System.HandleAdcSamples | modules/app_logic/app_logic.c:180-217 | with the flag down nothing changes; otherwise one batch is served and its word offered to the DAC queue; conversions are stopped and the thread exits exactly when the queue is full or an idle chain's transfer is refused |

## Left out

- Overflow mode, `nrf_queue_in`, `nrf_queue_out` and the utilization statistics of nrf_queue.c: the firmware uses neither.
- NULL checks of descriptors and callbacks: the objects always exist.
- Runs that go on after a NOTIFICATION_ON on an exposed point, or inside an offer of the pending buffer that is accepted: `CommResets.ResetExact` covers the interrupted call, which ends with ownership or stream broken.
- The bytes the SoftDevice sends for a NULL pointer: the model counts such notifications and knows nothing about their contents.
- Runs of the DAC chain exclude a completion inside the window at modules/dac/dac.c:147-149, because the code breaks there; `WindowExact` and `StuckForever` cover it.
- A 10-bit shift of decoded data (drivers/mcp47x6/mcp47x6.c:136-139): the fall-through at line 67 makes it unreachable.
- AppLogic.Pool.Averages: the accumulators are unbounded integers; ten 10-bit samples do not reach the 32-bit limit.
- DacConfig.VerifyDacConfig: the time a device takes to program its memory is counted in reads, not in milliseconds.
- The average of the temperature channel has no reader in the source; it is computed and kept only.
- `BLE_COMM_send_data` from an interrupt: the firmware calls it from the main loop.
- Advertising, GAP, security and service registration of modules/ble_stack/ble_stack.c and modules/modified_ble_nus/ble_nus.c: set-up calls without state of their own.
- `DAC_init`, `DAC_write_vol_sett_blocking` and `DAC_write_vol_dac_blocking`: driver set-up around the frames proved here.
- Timer, PPI, TWI, ADC and SoftDevice drivers, logging, LEDs, power management and main.c: not part of this model.
- Physical timing: the TWI bit rate and the sampling period appear in no result.
