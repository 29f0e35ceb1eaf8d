# StreamAudio — a verified model of the frame pipeline

StreamAudio streams a PC's sound over UDP multicast and has three programs:

- **`GameAudioStreamServer`** (the server) captures stereo 16-bit blocks. It queues each block in a capacity-2 queue that drops the oldest block when full. A send loop hands the queued blocks to `sendto`.
- **`MulticastAudioReceiverGUI`** (the client) admits each datagram of at least one frame's size into the same kind of queue. Its audio output callback plays one queued frame per block, or silence.
- **`MulticastTesterGUI`** (the tester) sends stamped probes and tallies what comes back. It grades the network from the loss.

This project models the sequential bookkeeping inside the three programs:

- admission and jitter queues;
- counters and playback;
- latency profiles;
- loss and drop rates with their grades;
- the device lists;
- the tester's validation, probe payload, tally and summary.

Each socket or audio event is one atomic step, and what it carries is a parameter. That includes the datagram bytes, the captured samples, whether `sendto` succeeded and the arrival time.

Modules:

- `Pcm`: int16 samples and their little-endian byte form. Covers `indata.tobytes()` and `np.frombuffer(..., dtype=np.int16)`.
- `Jitter`: the capacity-2 drop-oldest queue (`queue.Queue(maxsize=2)` with the `put_nowait`/`get_nowait` overflow handler). The queue is a sequence.
- `Stats`: the guarded loss formula and the green/yellow/red indicators.
- `Profiles`: `LATENCY_PROFILES`, which client and server share.
- `Devices`: the device selectors of both programs.
- `Receiver`: the value model `Rx` with its step functions, plus the class `AudioReceiver`. `ReceiveStep`, `Enqueue` and `AudioOutputCallback` are proved against the step functions `Receive` and `Pull`. The other methods (`StartReceive`, `StopReceive`, `OnLatencyProfileChange`) state their field updates directly.
- `Sender`: the value model `Tx`, plus the class `AudioSender`. `AudioCallback` and `SendStep` are proved against `Capture` and `Send`. `StartStream`, `StopStream` and `OnLatencyProfileChange` state their field updates directly.
- `Tester`: the extended network test.
- `Pipeline`: server and client together.

## Model

| member | source | states |
|---|---|---|
| Pcm.EncodeSamples | StreamAudio_Server.py:357-358 | the byte form of a block has two bytes per sample |
| Pcm.DecodeSamples | StreamAudio_Client.py:342 | decoding succeeds exactly on even-length buffers and yields one sample per two bytes |
| Pcm.DecodeEncode | StreamAudio_Client.py:342 | decoding the bytes the server sends gives back exactly the captured samples |
| Pcm.EncodeDecode | StreamAudio_Server.py:358 | every even-length buffer is the encoding of its decoding, so the two are inverse |
| Jitter.Newest | StreamAudio_Client.py:38 | the queue's content after overflow is the last `n` elements, in order |
| Jitter.Offer | StreamAudio_Client.py:438-458 | offering to the capacity-2 queue keeps its newest two elements; it evicts exactly when the queue was full; the offered element is last |
| Jitter.NewestAppend | StreamAudio_Server.py:360-369 | trimming to the newest elements before or after appending more gives the same queue |
| Stats.LossPercent | StreamAudio_Client.py:477-478 | the guarded rate lies in [0, 100], is `lost / (lost + delivered) * 100` when anything was counted, is 0 exactly when nothing was lost, and 100 exactly when something was lost and nothing was delivered |
| Stats.LossPercentMonotone | StreamAudio_Client.py:478 | more lost packets never lower the rate |
| Stats.LossIndicator | StreamAudio_Client.py:486 | green exactly below 5 %, red exactly from 15 % |
| Stats.DelayIndicator | StreamAudio_Client.py:485 | green exactly below 50 ms, red exactly from 100 ms |
| Stats.IndicatorsMonotone | StreamAudio_Client.py:485-486 | a larger value never gets a milder indicator |
| Profiles.Lookup | StreamAudio_Client.py:26-31 | exactly the four profile names are known, all at 44100 Hz with chunks 128, 256, 512 or 1024 |
| Profiles.ProfileOrder | StreamAudio_Server.py:25-30 | the profiles grow in chunk size from minimal to high; the low profile is the default 256 / 44100 |
| Profiles.FrameSeconds | StreamAudio_Client.py:43 | the nominal packet interval times the rate is the chunk size |
| Devices.NatToString | StreamAudio_Server.py:246 | a device index renders as a non-empty string of decimal digits |
| Devices.Select | StreamAudio_Server.py:271-272 | an enumerate-and-filter scan yields exactly the matching indices, in increasing order |
| Devices.FindStereoMixDevices | StreamAudio_Server.py:267-290 | one tagged entry per device that has inputs and whose lower-cased name contains a keyword |
| Devices.LineCableIsStereoMix | StreamAudio_Server.py:273-281 | the keyword match is case-insensitive ("Line cable" contains "cable") |
| Devices.MicrophoneIndicesAsWritten | StreamAudio_Server.py:244-249 | the source's microphone scan lists, in increasing order, exactly the devices with inputs whose `"i: name"` occurs in no stereo-mix entry |
| Devices.InputList | StreamAudio_Server.py:240-261 | the selector holds the stereo-mix entries, then one `"i: name"` entry per microphone index, in that order; the first entry is preselected, and an empty list keeps the selection |
| Devices.RefreshInputDevices | StreamAudio_Server.py:228-261 | with microphones matched by index: one entry per stereo mix plus one per other input device, every input device offered under its own kind; the first entry is preselected, an empty list keeps the selection |
| Devices.RefreshInputDevicesAsWritten | StreamAudio_Server.py:228-261 | the list the source builds: one entry per stereo mix plus one per microphone its substring filter keeps; every entry is also in the index-matched list; same selection rule |
| Devices.AsWrittenEntriesListed | StreamAudio_Server.py:244-249 | every entry of the source's list is an entry of the index-matched list |
| Devices.InputDevicesListedOnce | StreamAudio_Server.py:240-262 | each input device is listed once, tagged iff it is a stereo mix, and devices without inputs are not listed; stereo mixes come first; the first entry is preselected and an empty list keeps the selection |
| Devices.AsWrittenSkipsStereoMix | StreamAudio_Server.py:245-249 | the source's substring filter skips every stereo-mix device: each microphone it keeps is an input that is not a stereo mix |
| Devices.SubstringFilterDrops | StreamAudio_Server.py:248 | an ordinary input whose "i: name" occurs inside a stereo-mix entry is dropped by the substring filter and kept by the corrected one |
| Devices.SubstringFilterDropsMicrophone | StreamAudio_Server.py:244-258 | concrete input (device 1 "Line", device 11 "Line cable", ten output-only devices): the entry "1: Line" is in the index-matched list and missing from the list the source builds |
| Devices.OccursBetween | StreamAudio_Server.py:248 | Python's `in` on strings finds `sub` inside `pre + sub + post` |
| Devices.RefreshOutputDevices | StreamAudio_Client.py:278-307 | the list is built exactly when every output device's host API exists; it has one entry per output device; the first entry is selected only when nothing was |
| Devices.OutputDevicesListed | StreamAudio_Client.py:288-297 | a device is listed iff it has output channels, under its index, name and host-API name |
| Receiver.LatencyEstimate | StreamAudio_Client.py:442-449 | the estimate changes only to a positive value |
| Receiver.Receive | StreamAudio_Client.py:426-469 | one receive-loop iteration never lets the queue exceed two frames |
| Receiver.ReceiveEffects | StreamAudio_Client.py:428-469 | timeout: no change; error or short datagram: `lost_packets` + 1 and nothing queued; long datagram: appended whole with `packet_count` + 1, and when the queue was full the oldest is evicted and `lost_packets` + 1 |
| Receiver.AdmitResult | StreamAudio_Client.py:437-458 | an admitted datagram is appended (with the delay estimate updated) when there is room, and replaces the oldest frame with a counted loss when the queue is full |
| Receiver.ReceiveAccounting | StreamAudio_Client.py:436-462 | one iteration in the terms of the accounting lemma: queue, counters and evictions |
| Receiver.ReceiveAllAccounting | StreamAudio_Client.py:426-469 | without pulls, any run of iterations leaves the newest two admitted frames queued, adds one to `packet_count` per admitted datagram, and adds one to `lost_packets` per rejected event and per evicted frame |
| Receiver.NoPullsKeepLastTwo | StreamAudio_Client.py:436-458 | from an empty queue, n >= 2 admitted datagrams, arriving at any times, leave exactly the last two in arrival order and add n - 2 to `lost_packets` |
| Receiver.Admitted | StreamAudio_Client.py:436 | only datagrams of at least the admission size are admitted |
| Receiver.AdmittedAll | StreamAudio_Client.py:436 | a run of full-size datagrams is admitted entirely, with nothing rejected |
| Receiver.Silence | StreamAudio_Client.py:352 | silence is all zeros, of the requested length |
| Receiver.Pull | StreamAudio_Client.py:334-362 | a block is written exactly when running, and it has `frames * CHANNELS` samples; a running callback removes the oldest frame if there is one and writes that frame's playback block, or silence when the queue is empty; nothing else in the state changes |
| Receiver.PlaybackBlock | StreamAudio_Client.py:342-361 | the callback always writes a whole block of `frames * CHANNELS` samples |
| Receiver.PullEffects | StreamAudio_Client.py:334-362 | when stopped, neither the queue nor the buffer is touched; when running, at most the oldest frame is removed, a full block is written, and an empty queue gives silence |
| Receiver.PlaybackOfEncodedFrame | StreamAudio_Client.py:342-352 | an encoded frame with enough samples plays back as exactly its first `frames * CHANNELS` samples, and a shorter one as silence |
| Receiver.LossRate | StreamAudio_Client.py:477-478 | the client's loss rate lies in [0, 100] and is 0 before any packet |
| Receiver.TotalDelay | StreamAudio_Client.py:480-482 | the shown delay is never below the network estimate and equals it when the queue is empty |
| Receiver.AudioReceiver.constructor | StreamAudio_Client.py:34-45 | starts stopped with an empty queue, the default profile and zeroed statistics |
| Receiver.AudioReceiver.OnLatencyProfileChange | StreamAudio_Client.py:268-276 | a known profile sets chunk, rate and nominal interval; an unknown name changes nothing |
| Receiver.AudioReceiver.StartReceive | StreamAudio_Client.py:364-424 | returns early without the library or a device; counters, latency and arrival time are reset and the admission size fixed before the stream opens; a caught failure runs `stop_receive` |
| Receiver.AudioReceiver.ReceiveStep | StreamAudio_Client.py:426-469 | the in-place iteration is `Receive` on the object's state |
| Receiver.AudioReceiver.Enqueue | StreamAudio_Client.py:437-458 | the in-place `put_nowait` of an admitted datagram and its `queue.Full` handler are `Receive` on the object's state |
| Receiver.AudioReceiver.AudioOutputCallback | StreamAudio_Client.py:334-362 | the in-place callback pops the queue as `Pull` does and writes exactly `Pull`'s block into `outdata` |
| Receiver.AudioReceiver.StopReceive | StreamAudio_Client.py:506-529 | clears `running` and drains the queue; all counters keep their values |
| Receiver.Fill | StreamAudio_Client.py:352 | `outdata.fill(0)` leaves every sample zero |
| Receiver.CopyPrefix | StreamAudio_Client.py:346-347 | the buffer holds the decoded samples' prefix of its length |
| Sender.Capture | StreamAudio_Server.py:351-371 | capturing never lets the queue exceed two blocks |
| Sender.Send | StreamAudio_Server.py:373-395 | a datagram is handed to `sendto` exactly when running with a queued block; it is the oldest block, which leaves the queue, and `packet_count` grows by one only if `sendto` succeeded; otherwise nothing changes |
| Sender.StepEffects | StreamAudio_Server.py:351-395 | when stopped, capture and send change nothing; capture appends the block, evicting the oldest and counting a drop when full; a send takes the oldest block, and `packet_count` + 1 only if `sendto` succeeded; an empty queue sends nothing |
| Sender.Captures | StreamAudio_Server.py:351 | counts the capture callbacks of a run |
| Sender.Conservation | StreamAudio_Server.py:360-395 | every block captured while running is sent, dropped, lost to a failed send, or still queued, exactly once |
| Sender.DropRate | StreamAudio_Server.py:403 | the drop rate lies in [0, 100] and is 0 before any packet |
| Sender.AudioSender.constructor | StreamAudio_Server.py:33-43 | starts stopped with an empty queue, the default profile and no drops |
| Sender.AudioSender.OnLatencyProfileChange | StreamAudio_Server.py:219-226 | a known profile sets chunk and rate; an unknown name changes nothing |
| Sender.AudioSender.StartStream | StreamAudio_Server.py:292-349 | without a device or with a setup failure nothing changes; otherwise `running` is set and both counters are zeroed; a stream failure leaves `running` set; the queue is not emptied |
| Sender.AudioSender.AudioCallback | StreamAudio_Server.py:351-371 | the in-place callback is `Capture` on the object's state |
| Sender.AudioSender.SendStep | StreamAudio_Server.py:373-395 | the in-place send iteration is `Send`, and the datagram handed over is the oldest block |
| Sender.AudioSender.StopStream | StreamAudio_Server.py:426-433 | clears `running`; queued blocks and counters stay |
| Tester.ValidateInputs | Network_Test.py:126-145 | valid iff port and timeout parse, the group starts with "224." and the port is in 1024..65535 |
| Tester.DefaultInputsValid | Network_Test.py:133-141 | the default inputs pass, both port bounds are inclusive, 1023 and a 239. group fail |
| Tester.ProbePayload | Network_Test.py:305-308 | the payload is the 8 stamp bytes followed by 'X' filler, of length max(packet_size, 8) |
| Tester.Latencies | Network_Test.py:280-284 | only datagrams of at least 8 bytes are counted |
| Tester.LatenciesPrefix | Network_Test.py:274-284 | the delays counted from a prefix of the arrivals are a prefix of all counted delays |
| Tester.Count | Network_Test.py:283-287 | counting a delay adds one reception; the new minimum is at most the delay and the old minimum, the new maximum at least the delay and the old maximum |
| Tester.CountDelay | Network_Test.py:283-287 | one counted delay keeps count, sum, running minimum and running maximum (from 0) describing the counted delays |
| Tester.TallyOf | Network_Test.py:266-287 | the counters after counting a sequence of delays have counted each of them once |
| Tester.TallyOfDescribes | Network_Test.py:266-287 | the counters after counting any sequence of delays hold its length, its sum, its minimum (None for +inf) and its maximum (never below 0) |
| Tester.TallyStep | Network_Test.py:276-287 | one pass of the receiver loop counts the datagram's delay exactly when it is at least 8 bytes long, and otherwise leaves the counters as they were |
| Tester.ReceiveProbes | Network_Test.py:265-295 | the loop counts min(counted datagrams, max(packet_count, 0)) probes; its sum, minimum (None for +inf) and maximum (never below 0) describe exactly those delays |
| Tester.CountedPrefix | Network_Test.py:274 | where the loop stops, it has counted the first min(total, packet_count) delays |
| Tester.CountFailed | Network_Test.py:312-315 | failed sends never outnumber attempts |
| Tester.SendProbes | Network_Test.py:300-317 | the send loop hands over min(passes, max(packet_count, 0)) probes, each the payload for its stamp, and counts the failed sends |
| Tester.Grade | Network_Test.py:339-344 | excellent exactly below 5 %, poor exactly from 20 % |
| Tester.LossPercentage | Network_Test.py:324 | `lost / packet_count * 100` when `packet_count > 0`, else 0 |
| Tester.LostCount | Network_Test.py:323 | the probes not counted by the receiver, between 0 and `packet_count` |
| Tester.LostCountAsWritten | Network_Test.py:313-323 | the source's `lost_count` is the failed sends plus the probes not counted, between 0 and twice `packet_count` |
| Tester.LostCountDoubleCountsFailures | Network_Test.py:313-323 | with failed sends and everything else received, the source reports twice the real loss (20 % "poor" for 1 of 10, 200 % for 1 of 1) |
| Tester.Summarize | Network_Test.py:322-325 | the loss lies in [0, 100] and is 0 exactly when no probe was due or all were counted; the average is 0 without receptions, else the sum over the count |
| Tester.SummarizeAsWritten | Network_Test.py:313-344 | the source's summary: `lost_count` as written, a loss of `lost_count / packet_count * 100` in [0, 200] that is 0 exactly when no probe was due or none failed and all were counted; the grade of that loss; the same average as `Summarize` |
| Tester.Bounded | Network_Test.py:324 | helper of `SummarizeAsWritten`, not a model of the line itself: a percentage of a part at most twice the whole lies in [0, 200], the bound that line's `lost_count / packet_count * 100` then has |
| Tester.ExtendedTest | Network_Test.py:238-356 | the extended test sends and counts at most `packet_count` probes; its `lost_count` is the failed sends plus `packet_count` minus the probes counted; the summary it reports is the source's summary of those counts (loss value, grade, average), and the loss lies in [0, 200] and is 0 exactly when no send failed and every probe was counted |
| Tester.ExtendedTestThread | Network_Test.py:238-356 | a summary is reported exactly when every field parses, the sockets are set up, the timeout is not negative (`settimeout`) and the interval is not negative or the send loop makes no pass (`time.sleep`); that summary is the source's summary of the attempts made and the first `packet_count` counted delays |
| Pipeline.SentIsEncoded | StreamAudio_Server.py:358-383 | a block captured into an empty server queue is the next datagram sent, in its byte form |
| Pipeline.PlayedIsBlock | StreamAudio_Client.py:334-347 | a running client with an empty queue admits a full-size datagram, counts it, and plays it in the next output block |
| Pipeline.CapturedBlockPlaysBack | StreamAudio_Client.py:436-440 | a block of `chunk` stereo frames captured and sent by the server is `chunk*CHANNELS*2` bytes; a client on the same profile admits it and plays back exactly the captured samples |
| Pipeline.SmallerServerChunkIsLost | StreamAudio_Client.py:428-462 | if the client's chunk is larger than the server's, every datagram is counted lost and nothing is queued |
| Pipeline.LargerServerChunkIsTruncated | StreamAudio_Client.py:345-347 | if the server's chunk is larger, the client plays only the first `frames * CHANNELS` samples of each block |

## Left out

- The Tkinter interface: layout, styles, message boxes, `update_settings_info`, `show_device_info`, the level meter and its colours, the log window. The rule against changing the profile while running exists only as widget state, so the handlers are modelled without it.
- Sockets and multicast setup (`setup_network`, `setsockopt`, `bind`, `inet_aton`): OS calls. Their outcomes are parameters: the datagram or error each `recvfrom` produced, and whether `sendto` or the setup succeeded.
- `sounddevice`: streams and device queries are OS calls. The device list and host-API names are inputs, and whether a stream opened is a parameter.
- Threads and `queue.Queue` locking: every callback and loop iteration is one atomic step. The `queue.Empty` branch inside the overflow handlers (StreamAudio_Client.py:459-460, StreamAudio_Server.py:370-371) is reachable only through a concurrent pull, so it is not modelled.
- `time.time()`, the measured latencies and the audio level are floating point. Arrival times and delays are `real` parameters, and the level meter is not modelled.
- `struct.pack('d')` stamps and the `int()`/`float()` parsing of the tester's fields: a stamp is 8 opaque bytes, and a parsed field is an `Option` value (`None` when `int()` or `float()` raises). `ValidateInputs` takes the port and timeout that way. `ExtendedTestThread` takes the fields it parses (port, timeout, packet count, interval, packet size) as one `Option`, `None` when any of them does not parse. It keeps the timeout and the interval only for their sign, which decides whether `settimeout` or `time.sleep` raises; the port goes to the sockets, whose setup is one success flag.
- `_single_test_thread`, `run_single_test` and `test_multicast`: a single `sendto`/`recvfrom` exchange with nothing to count.
- `update_stats` packets-per-second and elapsed time: wall-clock arithmetic.
- Pcm.EncodeSamples: assumes a little-endian host, as `indata.tobytes()` on the native `int16` gives on the usual platforms.
- Pcm.DecodeSamples: assumes a little-endian host, as `np.frombuffer` with the native `int16` does on the usual platforms.
- Devices.LowerAscii: lower-cases ASCII letters only, where Python's `str.lower` folds all of Unicode; all the keywords are ASCII.
- Tester.ReceiveProbes: the stop button (`is_testing` turning false) is modelled as the arrival sequence ending, and arrivals are independent of what was sent.
- Tester.ExtendedTest: does not tie which probes arrive to which were sent, because arrivals are a parameter; so a failed probe can still be counted as received. The double count this causes is stated separately in `LostCountDoubleCountsFailures`.
- Percentages are Python floats (StreamAudio_Client.py:478, StreamAudio_Server.py:403, Network_Test.py:324) and are modelled as exact `real` values, without rounding.
- Sender.AudioSender.constructor: the source first assigns `packet_count` in `start_stream`; the model starts it at 0.

## Findings

| source | as written | input that shows it | evidently intended | confidence | as-written member | corrected member |
|---|---|---|---|---|---|---|
| Network_Test.py:313-323 | a failed `sendto` adds one to `lost_count`, and the final `lost_count += packet_count - received_count` counts the same probe again, since it never arrives | 10 probes, 1 failed send, the other 9 received: 2 lost, 20 %, graded poor; 1 probe that fails to send: 200 % | lost = probes due minus probes counted: 1 lost, 10 %, satisfactory | high, not executed | Tester.LostCountDoubleCountsFailures | Tester.Summarize |
| StreamAudio_Server.py:248 | a microphone is skipped when its `"i: name"` is a substring of any stereo-mix entry | input device 1 "Line" and virtual cable 11 "Line cable": "1: Line" occurs inside "11: Line cable 🔊 СИСТЕМНЫЙ ЗВУК", so device 1 is never offered | skip exactly the devices already listed as stereo mix, i.e. compare device indices | high, not executed | Devices.SubstringFilterDropsMicrophone | Devices.RefreshInputDevices |
