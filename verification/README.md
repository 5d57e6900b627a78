# Verified model of the sensor service

A Dafny model of the hard core of the sensor service, with proofs about it. Classes stand for the
objects the service updates in place; each method is proved against a function on values, and the
theorems are about those functions and about whole runs of them.

1. **Active-info byte stream** (`ByteCodec`, `StreamBuffer`, `NetPacket`, `StreamSession`,
   `StreamSocket`, `ActiveInfo`, `StreamTheorems`): a printer and a parser over an arbitrarily
   chunked stream, through a 257-byte array with in-place compaction. The kernel's answers to `send`
   and the cut into chunks are arbitrary.
2. **Subscriptions and hardware arbitration** (`SensorTypes`, `ClientInfo`, `SensorManager`,
   `SensorPowerPolicy`, `SensorService`; theorems in `Arbitration`, `RateExactness`, `Clamp`,
   `Suspension`, `Answers`, `ServiceRuns`, `Departures`, `Hardware`): a state machine whose steps are
   the service calls. The HDI is an oracle answering the n-th call; a refused call leaves the device
   as it was. Where the service walks an unordered map, the order is a parameter, so every theorem
   holds for all orders.
3. **Event pipeline** (`EventRing`, `Delivery`, `DataProcesser`; theorems in `DeliveryTheorems`,
   `Batching`, `BatchOrder`): the overwriting ring and its ready flag, thinning, batching and the
   failed-send cache, with the cells as heap objects and as values.
4. **Block policy and event filter** (`BlockPolicy`, `EventFilter`; theorems in `Revocation`): who
   gets an event, over all runs.
5. **Rotations and the geomagnetic model** over exact reals (`Vectors`, `Quaternions`, `Inclination`,
   `CoordinateSystem`, `GeomagneticField`). A square root is passed in as a value `r` with `r >= 0`
   and `r * r` the radicand.

`dafny verify dfyconfig.toml` checks the whole project.

## Where the code falls short of what it suggests

Each item names the exact condition, proved for all inputs, and then the lemma that gives an input.

- A payload of 245 to 256 bytes passes the buffer checks, but its frame does not fit: `SendMsg`
  sends a bare head and returns true (`SendOkIsFrameIffFramable`; `LongPayloadGoesOutBare`). The
  receiver never hands over anything after it (`LongPayloadJamsClient`).
- `SendMsg` returns true exactly when nothing is left and fewer than 32 calls were made
  (`TransmitOk`): it returns false when the last byte goes out in the 32nd call, although all bytes
  are on the wire (`FailureMayHaveSentAll`).
- A chunk that does not fit beside the unread bytes is dropped whole, which loses the stream
  (`DeliveredExactlyIffAllFit`; `ChunkBoundIsSharp`).
- A record that was admitted may be refused on resume: the clamp can be asked about the clamped
  period, whose FIFO span no longer fits 64 bits, and a sensor that only the service knows is
  granted as asked, a non-positive period included (`RoundTripRestoresIff`, `AdmittedIsResumableIff`;
  `LongSpanIsRefused`, `UnclampedPeriodIsRefused`, and `RoundTripLosesRefused` for what follows).
- The permission of a record is not saved: the whole record comes back exactly if it is resumable
  and was permitted (`WholeRecordBackIff`; `RevokedRecordExists`).
- A subscriber that re-enables at a slower rate can leave the hardware faster than anybody needs
  (`EnableExactIff`; `SlowDownLeavesHardwareFast`).
- A client that leaves and only then dies keeps the blocks it issued and its saved entry, because
  leaving lets its client object go without clearing them (`DeathClearsIff`; `LeaverIsForgotten`,
  `LeaverKeepsItsBlocks`). Only an active-info callback prevents it (`ListenerIsCleared`).
- Leaving touches no hardware: a sensor that only the leaver used stays on with nobody subscribed,
  and one it set the pace of stays too fast (`PoweredThroughoutIff`, `CallExactIff`;
  `LeaverLeavesSensorOn`, `LeaverLeavesHardwareFast`).
- An event can be sent on its own past the unfinished batch of its sensor, for one while another
  sensor's event is cached on the channel: events then arrive out of order (`OrderKeptIff`;
  `DeliveredOutOfOrder`).
- A batch is full when its length equals the batch size. When the size shrinks to the pending length
  or below it, nothing is sent at that size any more and the batch grows (`BatchStaysBelowIff`;
  `ShrunkSizeDeliversNothing`).
- The axis check masks the low byte only: codes with higher bits are accepted and may mirror
  (`TransformKeepsRotationsIff`; `AcceptedPairThatMirrors`).
- A 3-vector longer than 1 yields a quaternion, and a matrix that is not a rotation
  (`CreatedMatrixIsRotationIff`; `LongVectorIsNoRotation`).
- At or below the float epsilon the reciprocal of the field strength is replaced by the largest
  float, and the inclination does not level the field (`InclinationLevelsIff`;
  `WeakFieldIsNotLevelled`).

## Model

| member | source | states |
|---|---|---|
| `ByteCodec.SignedRoundTrip` | utils/ipc/include/stream_buffer.h:86-106 | a two's complement integer written in n bytes, least significant first, is read back unchanged |
| `ByteCodec.EncodeDecode` | utils/ipc/include/stream_buffer.h:97-106 | any n bytes are the encoding of exactly the number they decode to |
| `ByteCodec.DecodeSnoc` | utils/ipc/include/stream_buffer.h:86-106 | bytes come least significant first: one more byte adds 256 to the power of the earlier bytes times its value |
| `StreamBuffers.StreamBuffer.Read` | utils/ipc/src/stream_buffer.cpp:77-106 | hands out the oldest unread bytes and drops them, or fails as a whole; once an error is set, or on a short buffer, nothing is read and the error stays |
| `StreamBuffers.StreamBuffer.Write` | utils/ipc/src/stream_buffer.cpp:108-138 | appends the bytes behind the unread ones and touches no earlier byte, or sets the write error and changes no data |
| `StreamBuffers.StreamBuffer.SeekReadPos` | utils/ipc/src/stream_buffer.cpp:156-165 | skips n unread bytes, or returns false with position and status unchanged |
| `StreamBuffers.StreamBuffer.Clone` | utils/ipc/src/stream_buffer.cpp:145-149 | copies the other buffer's data from position 0; an empty source gives the write error |
| `StreamBuffers.StreamBuffer.WriteVector` | utils/ipc/include/stream_buffer.h:131-150 | writes the count and the elements, all of them exactly if they fit; otherwise a prefix of that, and the write error is set |
| `StreamBuffers.StreamBuffer.ReadVector` | utils/ipc/include/stream_buffer.h:108-129 | on any bytes: the elements up to the first one cut short, with the read error; a count above 10 is refused after it is consumed, without an error |
| `StreamBuffers.VectorRoundTrip` | utils/ipc/include/stream_buffer.h:108-150 | reading a written vector gives it back, and leaves what follows, exactly if it has at most 10 elements |
| `StreamBuffers.CutVector` | utils/ipc/include/stream_buffer.h:108-129 | a vector cut short gives its whole elements and the read error; a count above ten is refused first |
| `StreamBuffers.StreamBuffer.CopyDataToBegin` | utils/ipc/src/circle_stream_buffer.cpp:41-53 | the in-place left shift, inclusive of one byte past the end, keeps the unread bytes and stays inside the 257-byte array |
| `StreamBuffers.StreamBuffer.CheckWrite` | utils/ipc/src/circle_stream_buffer.cpp:20-28 | after at most one compaction the answer is exact: there is room if and only if unread plus new bytes are at most 256; no unread byte is lost |
| `StreamBuffers.StreamBuffer.CircleWrite` | utils/ipc/src/circle_stream_buffer.cpp:30-39 | a fitting chunk is appended to the unread bytes; one that does not fit is dropped whole |
| `NetPackets.HeadFields` | utils/ipc/src/net_packet.cpp:28-38 | the id and the payload length of a packet are recovered from the 12 bytes of its head |
| `NetPackets.NetPacket.MakeData` | utils/ipc/src/net_packet.cpp:28-38 | a payload of at most 244 bytes is framed as head and payload; for a longer one only the head is written |
| `StreamSessions.TransmitOk` | utils/ipc/src/stream_session.cpp:38-76 | the send loop reports success if and only if every byte was taken in fewer than 32 calls |
| `StreamSessions.StreamSession.SendMsg` | utils/ipc/src/stream_session.cpp:38-76 | whatever the kernel takes per call, the wire grows by a prefix of the buffer, by the whole of it on success |
| `StreamSessions.StreamSession.SendPacket` | utils/ipc/src/stream_session.cpp:100-109 | a packet with an error status is refused; any other one is framed and sent |
| `StreamSessions.StreamSession.Close` | utils/ipc/src/stream_session.cpp:78-85 | closing twice is closing once; the wire is untouched |
| `StreamSessions.SendOkIsFrameIffFramable` | utils/ipc/src/stream_session.cpp:100-109 | a send that returned true put the frame on the wire if and only if the payload is at most 244 bytes |
| `StreamSessions.WillingSocketGetsAll` | utils/ipc/src/stream_session.cpp:38-76 | a socket that takes everything gets every packet's data in one call, with success |
| `StreamSessions.LongPayloadGoesOutBare` | utils/ipc/src/stream_session.cpp:100-109 | a payload of 245 bytes and a kernel that takes everything: success, and the wire is not the frame |
| `StreamSessions.SendRunFrames` | utils/ipc/src/stream_session.cpp:38-76 | when every send returned true, the wire is the concatenation of the frames if and only if all payloads fit |
| `StreamSessions.FailureMayHaveSentAll` | utils/ipc/src/stream_session.cpp:68-75 | a send can report failure although all bytes were sent: the last one in the 32nd call |
| `ActiveInfos.ReportActiveInfo` | services/src/sensor_power_policy.cpp:233-254 | a valid report is offered as one frame to every open session, whichever sends fail; an invalid one to none |
| `ActiveInfos.HandlePacket` | frameworks/native/src/sensor_service_client.cpp:747-767 | the receiver reads from a report's packet the four values that were written |
| `ActiveInfos.HandleIff` | frameworks/native/src/sensor_service_client.cpp:747-767 | a packet is reported as given four values exactly if it has the active-info id and begins with their image |
| `ActiveInfos.SensorServiceClient.OnReadPackets` | utils/ipc/src/stream_socket.cpp:30-70 | hands over the complete packets in order and leaves exactly the rest unread |
| `ActiveInfos.SensorServiceClient.ReceiveMessage` | frameworks/native/src/sensor_service_client.cpp:734-745 | one read of the socket: buffer, parse, hand over; a chunk that does not fit changes nothing |
| `ActiveInfos.SensorServiceClient.HandleNetPacke` | frameworks/native/src/sensor_service_client.cpp:747-767 | reports an ACTIVE_INFO packet of full length; any other packet, or a short one, reports nothing |
| `StreamTheorems.ParseFrames` | utils/ipc/src/stream_socket.cpp:30-70 | parsing undoes framing: whole frames come out in order, an incomplete frame stays; no limit on packets per read binds |
| `StreamTheorems.HeadDecides` | utils/ipc/src/stream_socket.cpp:30-70 | what any bytes behind a head amount to: over 256 announced bytes empty the buffer, missing ones wait, otherwise the packet is handed over |
| `StreamTheorems.LongPayloadJamsClient` | utils/ipc/src/circle_stream_buffer.cpp:20-39 | after a payload of 245 to 256 bytes was sent the client hands over nothing any more, whatever arrives |
| `StreamTheorems.PrefixSplits` | utils/ipc/src/stream_socket.cpp:30-70 | every prefix of a stream of frames is some whole frames followed by a proper prefix of the next one |
| `StreamTheorems.ReceiveAdvances` | frameworks/native/src/sensor_service_client.cpp:734-745 | a fitting chunk takes the client from one prefix of the stream to a longer one, handing over exactly the frames completed in between |
| `StreamTheorems.StreamDelivers` | utils/ipc/src/stream_socket.cpp:30-70 | for every packet sequence and every cut into fitting chunks, the callback sees exactly the complete packets in order and the residue is a proper prefix of the next frame |
| `StreamTheorems.DeliverConserves` | utils/ipc/src/circle_stream_buffer.cpp:20-39 | bytes handed over plus bytes kept never exceed bytes received, and fall short whenever a chunk was dropped |
| `StreamTheorems.DeliveredExactlyIffAllFit` | utils/ipc/src/circle_stream_buffer.cpp:20-39 | a fully delivered stream reaches the client packet for packet if and only if every chunk fits beside the unread bytes |
| `StreamTheorems.ShortChunksFit` | utils/ipc/src/circle_stream_buffer.cpp:20-53 | with frames of at most L bytes, chunks of at most 257 - L bytes never overflow the receive buffer |
| `StreamTheorems.ChunkBoundIsSharp` | utils/ipc/src/circle_stream_buffer.cpp:20-28 | for every frame length L, chunks of 258 - L bytes can overflow it |
| `StreamTheorems.ReportsArrive` | frameworks/native/src/sensor_service_client.cpp:734-767 | end to end: reports sent with success arrive as the same values in the same order, under every partial-send pattern and every fitting cut |
| `StreamTheorems.ReceiveAll` | frameworks/native/src/sensor_service_client.cpp:734-745 | a client object fed read by read is in the state the stream theorems speak about |
| `ClientInfos.ClientInfo.GetSensorState` | services/src/client_info.cpp:47-69 | true exactly when some record of the sensor is active |
| `ClientInfos.ClientInfo.GetBestSensorInfo` | services/src/client_info.cpp:71-100 | the smallest period and the smallest delay over the records, in whatever order the map is walked |
| `ClientInfos.ClientInfo.OnlyCurPidSensorEnabled` | services/src/client_info.cpp:102-129 | true exactly when the sensor is enabled and nobody but the pid enabled it |
| `ClientInfos.ClientInfo.UpdateSensorInfo` | services/src/client_info.cpp:241-264 | stores a record of a real pid and sensor with an active configuration and changes no other record |
| `ClientInfos.ClientInfo.RemoveSubscriber` | services/src/client_info.cpp:266-280 | removes that record only |
| `ClientInfos.ClientInfo.ClearSensorInfo` | services/src/client_info.cpp:306-322 | removes the sensor's whole entry and no other |
| `ClientInfos.ClientInfo.ClearCurPidSensorInfo` | services/src/client_info.cpp:324-347 | removes one record, and the entry with its last record |
| `ClientInfos.ClientInfo.DestroySensorChannel` | services/src/client_info.cpp:349-379 | removes every record of the pid, emptied entries, its channel and its application |
| `ClientInfos.ClientInfo.GetSensorIdByPid` | services/src/client_info.cpp:565-577 | lists exactly the sensors the pid has a record of, each once |
| `ClientInfos.ClientInfo.UpdatePermState` | services/src/client_info.cpp:800-814 | sets the permission of the pid's records of that sensor type and changes nothing else |
| `ClientInfos.ClientInfo.UpdateSensorChannel` | services/src/client_info.cpp:282-304 | replaces the channel of a known pid, or adds one unless 200 are registered |
| `ClientInfos.ClientInfo.UpdateAppThreadInfo` | services/src/client_info.cpp:131-152 | records the application of a pid, refusing bad ids and newcomers to a full table |
| `ClientInfos.ClientInfo.SaveClientPid` | services/src/client_info.cpp:515-531 | records the pid of a client object unless the table is full |
| `ClientInfos.ClientInfo.FindChannelPid` | services/src/client_info.cpp:579-604 | finds the pid that owns the channel, if any |
| `ClientInfos.ClientInfo.ComputeBestPeriodCount` | services/src/client_info.cpp:409-432 | the period of the pid that owns the channel divided by the smallest one, 0 when that is not positive |
| `ClientInfos.ClientInfo.ComputeBestFifoCount` | services/src/client_info.cpp:434-457 | the delay of the pid that owns the channel divided by its period, 0 when that is not positive |
| `ClientInfos.PeriodCountBrackets` | services/src/client_info.cpp:409-432 | for a subscribed pid and the fastest period: P >= 1 and P * best <= cur < (P + 1) * best for a positive best, 0 for a zero one, and at most 1 for a negative one |
| `ClientInfos.FifoCountBrackets` | services/src/client_info.cpp:434-457 | for a subscribed pid the batch size n satisfies n * period <= delay < (n + 1) * period, and is 0 for a zero period or opposite signs |
| `ClientInfos.CountsWithoutRecord` | services/src/client_info.cpp:409-457 | a pid without a record counts with the longest period and delay |
| `ClientInfos.SetPermIs` | services/src/client_info.cpp:800-814 | exactly the pid's records of that type have the new permission; every other field, record and key is as before |
| `SensorManagers.SensorManager.SaveSubscriber` | services/src/sensor_manager.cpp:108-118 | stores the clamped request for the pid, or nothing |
| `SensorManagers.SensorManager.SetBestSensorParams` | services/src/sensor_manager.cpp:45-69 | programs the minimum over the records, unless the caller needs less than both current minima; a refused batch changes nothing |
| `SensorManagers.SensorManager.ResetBestSensorParams` | services/src/sensor_manager.cpp:71-88 | programs the minimum over the records that are left; a refused batch changes nothing |
| `SensorManagers.SensorManager.IsOtherClientUsingSensor` | services/src/sensor_manager.cpp:149-166 | gives up the caller's record when others use the sensor, and does nothing when the caller is alone |
| `SensorManagers.SensorManager.AfterDisableSensor` | services/src/sensor_manager.cpp:168-183 | the sensor's whole entry goes and no other; a stored proximity event of a listed sensor is set to far |
| `SensorManagers.SupportFits` | services/src/sensor_manager.cpp:120-147 | when a FIFO of that many events is supported at the period, the longest delay fits in 64 bits |
| `Clamp.ClampGrants` | services/src/sensor_manager.cpp:120-147 | a request for a known sensor is granted if and only if its period is positive and its FIFO span fits in 64 bits, or the period is the least 64-bit integer and there is no FIFO; the grant is never faster than asked or than the sensor |
| `Clamp.ClampIdempotentIff` | services/src/sensor_manager.cpp:120-147 | granting the granted configuration again changes nothing if and only if its period is positive (or still the least integer) and the FIFO span fits at it |
| `Clamp.FifoCountBoundedIff` | services/src/client_info.cpp:434-457 | a client waits for no more events than the sensor's FIFO holds, if and only if its granted period is not negative or its delay is greater than its period |
| `Clamp.AdmittedIsAdmissibleIff` | services/src/sensor_service.cpp:608-612 | an admitted, granted request passes the test of Resume if and only if the granted period is positive |
| `Clamp.AdmittedIsResumableIff` | services/src/sensor_power_policy.cpp:135-139 | the round-trip condition in a caller's terms: positive period and, for a known sensor, a FIFO span that fits |
| `Clamp.LongSpanIsRefused` | services/src/sensor_manager.cpp:134-141 | an admitted and granted request the service will not take back: the minimal period stretches the FIFO span beyond 64 bits |
| `Clamp.UnclampedPeriodIsRefused` | services/src/sensor_manager.cpp:127-133 | another one: a sensor the manager does not know, with period 0 |
| `Clamp.RoundTripLosesRefused` | services/src/sensor_power_policy.cpp:131-163 | such a request is enabled with success, and a suspend and resume lose it without any failing HDI call |
| `SensorPowerPolicies.SensorPowerPolicy.Suspend` | services/src/sensor_power_policy.cpp:70-98 | walks the pid's sensors: the configuration is saved unless one already is, the record goes whether or not the hardware obeys, pedometers are left alone |
| `SensorPowerPolicies.SensorPowerPolicy.SuspendSensors` | services/src/sensor_power_policy.cpp:40-68 | the answer, the saved entry and the registry after a suspend, with and without an earlier entry |
| `SensorPowerPolicies.SensorPowerPolicy.ResumeSensors` | services/src/sensor_power_policy.cpp:100-129 | every saved configuration is tried; the entry goes only if all came back |
| `SensorPowerPolicies.SensorPowerPolicy.RestoreSensorInfo` | services/src/sensor_power_policy.cpp:165-182 | stores and arbitrates one configuration, or takes the record back out |
| `SensorPowerPolicies.SensorPowerPolicy.ResetSensors` | services/src/sensor_power_policy.cpp:196-212 | resumes every suspended pid and reports whether all succeeded |
| `SensorPowerPolicies.SensorPowerPolicy.DeleteDisablePidSensorInfo` | services/src/sensor_power_policy.cpp:267-285 | drops one saved configuration, and the entry with its last one |
| `SensorPowerPolicies.SensorPowerPolicy.DeleteDeathPidSensorInfo` | services/src/sensor_power_policy.cpp:256-265 | drops the saved entry of the pid only |
| `SensorServices.SensorService.EnableSensor` | services/src/sensor_service.cpp:618-666 | refines the enable step: permission, parameter check, save, arbitrate, switch on, with the roll-backs of each failure |
| `SensorServices.SensorService.SaveSubscriber` | services/src/sensor_service.cpp:527-549 | stores the record and arbitrates for it, or takes it back out |
| `SensorServices.SensorService.DisableSensor` | services/src/sensor_service.cpp:723-768 | refines the disable step: forget the saved configuration, yield to others or switch off and clear |
| `SensorServices.SensorService.TransferDataChannel` | services/src/sensor_service.cpp:902-937 | registers a client, its pid, its application and its channel, or refuses with the code of the full table or bad id |
| `SensorServices.SensorService.DestroySensorChannel` | services/src/sensor_service.cpp:939-956 | a client that leaves takes its records, its application and its channel along, and is let go unless an active-info callback holds its pid |
| `SensorServices.SensorService.RegisterClientDeathRecipient` | services/src/sensor_service.cpp:987-998 | the client object is recorded for the pid unless it is a newcomer to a full table |
| `SensorServices.SensorService.UnregisterClientDeathRecipient` | services/src/sensor_service.cpp:1000-1016 | the client object is let go exactly when its pid has neither a channel nor an active-info callback |
| `SensorServices.SensorService.CreateSocketChannel` | services/src/sensor_service.cpp:1103-1122 | a native caller is registered like a connecting client |
| `SensorServices.SensorService.DestroySocketChannel` | services/src/sensor_service.cpp:1124-1136 | a native caller is let go under the same condition |
| `SensorServices.SensorService.EnableActiveInfoCB` | services/src/sensor_service.cpp:1138-1148 | adds the pid to the active-info set, refusing a second time |
| `SensorServices.SensorService.DisableActiveInfoCB` | services/src/sensor_service.cpp:1150-1160 | takes the pid out of the active-info set, refusing an absent one |
| `SensorServices.SensorService.ProcessDeathObserver` | services/src/sensor_service.cpp:958-985 | refines the death step: saved entry, every active sensor, channel, client object and blocks |
| `Arbitration.GrantedIsFixed` | services/src/sensor_manager.cpp:120-147 | what the clamp grants it grants again unchanged, or refuses |
| `Arbitration.EnableKeeps` | services/src/sensor_service.cpp:618-666 | an enable keeps the invariant, changes only the caller's record of that sensor, stores the clamped request on success and no new record otherwise |
| `Arbitration.DisableKeeps` | services/src/sensor_service.cpp:723-768 | a disable keeps the invariant and removes exactly the caller's record, although a whole entry may be erased; the sensor stays on while somebody is left |
| `Answers.EnableAnswersIff` | services/src/sensor_service.cpp:590-666 | which check refuses an enable, with the limits spelled out; behind the checks success is exactly that the record is there |
| `Answers.DisableAnswersIff` | services/src/sensor_service.cpp:723-768 | which check refuses a disable; behind the checks it fails exactly if a sole user of a known sensor is left with the sensor on |
| `Answers.ConnectAnswersIff` | services/src/sensor_service.cpp:902-937 | a connect succeeds exactly if the new channel is the pid's channel afterwards; a refusal leaves all but the application as it was |
| `Answers.ResetAnswersIff` | services/src/sensor_power_policy.cpp:196-212 | a reset reports success exactly if no saved entry is left |
| `Arbitration.YieldKeeps` | services/src/sensor_manager.cpp:149-166 | giving up a record leaves the others served, and is refused exactly when the caller is the only subscriber |
| `Arbitration.ResumeKeeps` | services/src/sensor_power_policy.cpp:131-163 | one configuration brought back unchanged with the sensor on, or no trace of it |
| `ServiceRuns.CallKeeps` | services/src/sensor_service.cpp:618-1176 | every call, with any hardware answers, keeps the invariant and the records of every pid it does not concern |
| `ServiceRuns.EveryRunKeepsInvariant` | services/src/sensor_manager.cpp:45-88 | in every run every stored record is active, its sensor is on, and the hardware period and delay are at most the record's |
| `ServiceRuns.BystandersKeepEverything` | services/src/sensor_service.cpp:618-768 | a pid no call concerns keeps all its records through a whole run |
| `ServiceRuns.DeathCleansUp` | services/src/sensor_service.cpp:958-985 | after a client's death nothing of its pid is left, whichever disables fail, and nobody else's entries changed |
| `Hardware.DeathSwitchesOff` | services/src/sensor_service.cpp:958-985 | with cooperating hardware, after a death each sensor of the client is on exactly if others are subscribed, at exactly their rate if the rate was exact; all other sensors keep subscribers, power and rate |
| `Departures.TablesFollow` | services/src/sensor_service.cpp:987-1016 | in any reached state the tables of clients, channels, applications and listeners hold what the calls of the run amount to: connected since the last departure or death, listening since the last switch, registered until let go |
| `Departures.CloseReleasesIff` | services/src/sensor_service.cpp:1000-1016 | closing a socket lets exactly that client go if its pid has neither a channel nor an active-info callback, and else changes nothing |
| `Departures.LeaveReleasesIff` | services/src/sensor_service.cpp:939-956 | leaving takes the channel and application; the client goes exactly if its pid is then neither connected nor listening |
| `Departures.ListenerIsCleared` | services/src/sensor_service.cpp:939-985 | a listening client that leaves is still registered, and its death clears its blocks and saved entry |
| `Departures.DeathClearsIff` | services/src/sensor_service.cpp:958-1016 | after any run a client's death clears the blocks a pid issued and its saved entry, if there are any, if and only if the client is still registered for that pid |
| `Departures.LeaverIsForgotten` | services/src/sensor_service.cpp:939-956 | a client that leaves without an active-info callback keeps its blocks and saved entry, and its death changes nothing |
| `Departures.LeaverKeepsItsBlocks` | services/src/sensor_service.cpp:939-985 | the shortest such run: connect, block, leave, die; the block is still outstanding |
| `Hardware.SteadyRunsAreExact` | services/src/sensor_manager.cpp:45-88 | in runs of any calls without hardware failures, in which no enable or resume slows its own client and no pace-setter leaves, the hardware is exactly at the minimum |
| `Hardware.CallExactIff` | services/src/sensor_manager.cpp:45-88 | call by call: exact rates stay exact if the call does not disturb them, and only then (a reset may put right what it disturbed) |
| `Hardware.CallPowerIff` | services/src/sensor_service.cpp:618-985 | call by call: sensors on exactly for their subscribers stay so if and only if the call is not the departure of a sole user |
| `Hardware.PoweredThroughoutIff` | services/src/sensor_service.cpp:618-985 | over whole runs of all calls a sensor is on exactly while somebody is subscribed, if and only if no client leaves a sensor that only it used |
| `Hardware.LeaverLeavesSensorOn` | services/src/sensor_service.cpp:939-956 | a sound state whose sole user leaves: the sensor stays on with nobody subscribed |
| `Hardware.LeaverLeavesHardwareFast` | services/src/sensor_service.cpp:939-956 | a sound exact state whose faster subscriber leaves: the hardware stays too fast |
| `RateExactness.EnableEffect` | services/src/sensor_service.cpp:618-666 | with cooperating hardware the parameters alone decide success, and the hardware ends at the new minimum or, when skipped, where it was |
| `RateExactness.EnableExactIff` | services/src/sensor_manager.cpp:56-59 | an enable from exact hardware ends exact if and only if it is not a re-enable that slows down the one who set the pace |
| `RateExactness.DisableExact` | services/src/sensor_manager.cpp:71-88 | disabling keeps the hardware exact |
| `RateExactness.SlowDownLeavesHardwareFast` | services/src/sensor_manager.cpp:56-59 | two subscribers and one slower re-enable: hardware faster than anybody needs |
| `Suspension.SuspendEachKeeps` | services/src/sensor_power_policy.cpp:70-98 | the suspend loop keeps the invariant and the other clients, whichever disables fail |
| `Suspension.SuspendEachAt` | services/src/sensor_power_policy.cpp:70-98 | seen from one sensor: the record moves into the saved entry; with cooperating hardware the sensor stays on exactly if others use it |
| `Suspension.SuspendAnswersIff` | services/src/sensor_power_policy.cpp:40-98 | whatever HDI calls fail: the answer is success exactly if every sensor that only the client used is off; all records but pedometers go, and an earlier saved entry stays as it is |
| `Suspension.ResumeOkIff` | services/src/sensor_power_policy.cpp:131-163 | with cooperating hardware a configuration comes back if and only if it is admissible and granted |
| `Suspension.ResumeEachAt` | services/src/sensor_power_policy.cpp:100-129 | the resume loop restores each saved configuration it reports on and leaves other sensors alone |
| `Suspension.ResumeRestores` | services/src/sensor_power_policy.cpp:100-129 | a resume that returns success restored everything and emptied the entry; one that returns an error kept every saved configuration |
| `Suspension.ResumeAnswersIff` | services/src/sensor_power_policy.cpp:100-129 | whatever HDI calls fail: a resume reports success exactly if every saved configuration is resumable and its record is there |
| `SensorPowerPolicies.ForgetDropsOne` | services/src/sensor_power_policy.cpp:267-287 | a disable forgets exactly that saved configuration, and the entry with its last one |
| `Suspension.DisabledStaysDown` | services/src/sensor_power_policy.cpp:100-129 | a sensor disabled while suspended stays without the client through the resume |
| `Suspension.RoundTrip` | services/src/sensor_power_policy.cpp:40-182 | suspend then resume, sensor by sensor: record, power state and other subscribers as before, or exactly the refused record missing |
| `Suspension.RoundTripRestoresIff` | services/src/sensor_power_policy.cpp:40-182 | the round trip returns success if and only if every suspended record is resumable, which is if and only if all are back; nobody else's record moves |
| `Suspension.WholeRecordBackIff` | services/src/sensor_power_policy.cpp:131-182 | the whole record, permission included, is back if and only if it is resumable and was permitted |
| `Suspension.RevokedRecordExists` | services/src/client_info.cpp:800-814 | a resumable record in a sound state whose permission was revoked, so that the round trip changes it |
| `ServiceRuns.SavedKept` | services/src/sensor_power_policy.cpp:40-68 | no call but the client's own disable or death changes a saved entry that survives it |
| `ServiceRuns.SavedSurvives` | services/src/sensor_power_policy.cpp:100-129 | a saved entry stays whole through any run in between |
| `ServiceRuns.LaterResumeRestoresAll` | services/src/sensor_power_policy.cpp:100-129 | a later successful resume restores every configuration saved before any number of failed tries and other clients' calls |
| `ServiceRuns.ResetRestoresAll` | services/src/sensor_power_policy.cpp:196-212 | a ResetSensors that returns success restored every saved configuration of every suspended pid, sensors on, and emptied their entries |
| `BlockPolicies.SensorDataBlockPolicy.BlockSensorDataByPid` | services/src/sensor_data_block_policy.cpp:29-66 | adds the types to the issuer's block of the target; bad arguments change nothing |
| `BlockPolicies.SensorDataBlockPolicy.UnblockSensorDataByClient` | services/src/sensor_data_block_policy.cpp:68-97 | removes the issuer's block of the target, and the target with its last block |
| `BlockPolicies.SensorDataBlockPolicy.IsSensorDataBlocked` | services/src/sensor_data_block_policy.cpp:99-112 | true exactly when some issuer blocks the type for the target |
| `BlockPolicies.SensorDataBlockPolicy.ClearBlockPolicyByClient` | services/src/sensor_data_block_policy.cpp:114-127 | removes everything the client issued and nothing else, emptied targets included |
| `BlockPolicies.SensorDataBlockPolicy.GetBlockedSensorTypes` | services/src/sensor_data_block_policy.cpp:129-143 | lists exactly the types blocked for the target |
| `BlockPolicies.PolicyIsOutstanding` | services/src/sensor_data_block_policy.cpp:29-152 | in any history the map holds a block exactly when it was issued and nothing took it back since |
| `BlockPolicies.BlockedIffOutstanding` | services/src/sensor_data_block_policy.cpp:99-112 | data is withheld exactly while somebody's block is outstanding |
| `BlockPolicies.PoliciesStayTidy` | services/src/sensor_data_block_policy.cpp:68-127 | no empty policy and no target without policies lingers |
| `EventFilters.EventRouter.GetSensorChannel` | services/src/client_info.cpp:212-239 | exactly the channels of permitted subscribers that are connected |
| `EventFilters.EventRouter.IsBlockSensorData` | services/src/sensor_data_processer.cpp:326-335 | true exactly when the pid that owns the channel is blocked for the type; a channel of nobody is not blocked |
| `EventFilters.EventRouter.EventFilter` | services/src/sensor_data_processer.cpp:337-369 | serves exactly the channels that may get the event, each once |
| `EventFilters.PoliciesFollowHistory` | services/src/sensor_data_block_policy.cpp:29-152 | the policies of a reached state are those of the run's block history, client deaths included |
| `EventFilters.EventPassesIff` | services/src/sensor_data_processer.cpp:337-369 | over every run an event passes to a pid if and only if it holds a permitted record, its channel is connected, active and not shake-controlled, and no block of that type is outstanding |
| `EventFilters.EventRouter.FilterAfterRun` | services/src/sensor_data_processer.cpp:337-369 | in the state any run reaches, the served channels are exactly those of the pids entitled to the event by the run's calls, each once |
| `Revocation.RevocationHolds` | services/src/client_info.cpp:800-814 | after a permission is revoked no event of that type passes to the pid through any calls of anybody, until its own enable, a resume or a grant |
| `EventRings.WriteSlotIsModular` | utils/common/src/report_data_callback.cpp:46-77 | the write position is (readPos + eventNum) mod 1024 |
| `EventRings.RingAppend` | utils/common/src/report_data_callback.cpp:46-77 | storing at the write position is "append, keep the latest 1024" |
| `EventRings.RingHead` | services/src/sensor_data_processer.cpp:383-390 | the oldest pending event is at the read position, and advancing it removes exactly that one |
| `EventRings.EventQueue.ReportEventCallback` | utils/common/src/report_data_callback.cpp:46-77 | the in-place ring write refines append-and-keep-latest; corrupt positions are refused without a change |
| `EventRings.EventQueue.OnDataEvent` | services/hdi_connection/adapter/src/sensor_event_callback.cpp:103-110 | under the lock the flag is raised with the event |
| `EventRings.EventQueue.ProcessEvents` | services/src/sensor_data_processer.cpp:371-392 | drains everything pending in arrival order and leaves the flag down |
| `EventRings.FlagIsPending` | services/src/sensor_data_processer.cpp:371-392 | whenever the lock is free the flag is up if and only if something is pending, so no wakeup is lost |
| `EventRings.EventsAreAccountedFor` | utils/common/src/report_data_callback.cpp:46-77 | every event is taken, pending or overwritten; what was taken, then what is pending, is a subsequence of the arrivals, and what is pending are the newest ones |
| `EventRings.LosslessIffNeverFull` | utils/common/src/report_data_callback.cpp:46-77 | nothing is lost if and only if no event arrived while 1024 were waiting |
| `DataProcessers.SensorDataProcesser.SendRawData` | services/src/sensor_data_processer.cpp:246-261 | an empty batch is not sent; a failed send leaves its last event in the channel's cache |
| `DataProcessers.SensorDataProcesser.CacheSensorEvent` | services/src/sensor_data_processer.cpp:263-297 | retries the cached event once, then sends the new one, which replaces the cached one if it fails |
| `DataProcessers.SensorDataProcesser.SendNoneFifoCacheData` | services/src/sensor_data_processer.cpp:80-130 | the scan with erasure refines its specification on the heap: cells of other sensors and live channels keep their counters |
| `DataProcessers.SensorDataProcesser.SendFifoCacheData` | services/src/sensor_data_processer.cpp:132-194 | the batching scan refines its specification on the heap, the reused and the fresh cells included |
| `DataProcessers.SensorDataProcesser.ReportData` | services/src/sensor_data_processer.cpp:196-220 | on-change events go out directly, others thinned, others batched |
| `DataProcessers.SensorDataProcesser.SendEvents` | services/src/sensor_data_processer.cpp:394-406 | while anything is cached on the channel, thinning and batching are bypassed |
| `DataProcessers.FifoCacheData.InitFifoCache` | services/src/fifo_cache_data.cpp:28-32 | a sent batch leaves a fresh cell of the same channel |
| `Deliveries.ScanNoneIsTurn` | services/src/sensor_data_processer.cpp:98-129 | the scan over all cells is one turn of the channel's own cell; every other live channel's cell is as it was, and no channel has two |
| `Deliveries.ScanFifoIsTurn` | services/src/sensor_data_processer.cpp:152-185 | the same for the batching scan |
| `Deliveries.DeadCellsGo` | services/src/sensor_data_processer.cpp:80-185 | a scan that delivers nothing leaves no cell of a channel that is gone |
| `DeliveryTheorems.DeliveryKeepsOrder` | services/src/sensor_data_processer.cpp:222-297 | under any send failures, what a channel gets of a sensor one by one, then what waits for a retry, is a subsequence of the arrivals, in order, none twice |
| `DeliveryTheorems.NewestIsDeliveredOrHeld` | services/src/sensor_data_processer.cpp:222-297 | for an on-change sensor the newest arrival is always the last one delivered or the one held |
| `Deliveries.OnChangeIsBit` | services/src/sensor_data_processer.cpp:232-235 | the mode test is bit 1, whatever the higher bits |
| `DeliveryTheorems.RetryOnce` | services/src/sensor_data_processer.cpp:263-297 | the waiting event is tried once more and then the new one; each outcome decides exactly what is delivered and what waits |
| `DeliveryTheorems.OnChangeIsAccountedFor` | services/src/sensor_data_processer.cpp:222-297 | every arrival of an on-change sensor is delivered, held, or lost by failing twice; what is delivered and held is all arrivals if and only if no event fails twice |
| `DeliveryTheorems.StepKeepsOthersCells` | services/src/sensor_data_processer.cpp:80-185 | an event of another channel or sensor leaves a live channel's counter and batch alone |
| `DeliveryTheorems.EveryPthIsDelivered` | services/src/sensor_data_processer.cpp:80-130 | from a fresh entry, with everybody else interleaved, event k is delivered if and only if P divides k |
| `DeliveryTheorems.StoppedDeliversNothing` | services/src/sensor_data_processer.cpp:196-220 | a period count of 0 delivers nothing and leaves counter and batch alone |
| `DeliveryTheorems.DueEventsAreDelivered` | services/src/sensor_data_processer.cpp:80-130 | from any state exactly the events at which the counter comes due are delivered |
| `DeliveryTheorems.OneDeliveryInP` | services/src/sensor_data_processer.cpp:108-123 | after any run at any rates and with any failures, once nothing waits for a retry, P events of the channel contain exactly one delivery, everybody else interleaved |
| `Batching.BatchesConserveEvents` | services/src/sensor_data_processer.cpp:132-185 | sent batches followed by the pending batch are exactly the events at indices P, 2P, 3P, ...; every batch of the sensor has exactly F events |
| `Batching.BatchStaysBelowIff` | services/src/sensor_data_processer.cpp:132-185 | from any state, the events at which the counter comes due are conserved, and the pending batch stays below the size if and only if it was below it when the size was set; otherwise nothing is sent any more |
| `Batching.ShrunkSizeDeliversNothing` | services/src/sensor_data_processer.cpp:164-180 | two events pending when the size shrinks from three to two: nothing is delivered any more, and the batch holds every later event |
| `BatchOrder.OrderKeptIff` | services/src/sensor_data_processer.cpp:132-297 | for every subscriber, at any changing rates and sizes and under any failures: what was sent, waits for a retry and waits in the batch is always in arrival order if and only if no event is sent alone past a batch that is not empty |
| `BatchOrder.DeliveredOutOfOrder` | services/src/sensor_data_processer.cpp:187-297 | one on-change event of another sensor fails once, no batch fails, and the second event of the batched sensor arrives before the first |
| `Quaternions.CreateQuaternion` | frameworks/native/src/sensor_algorithm.cpp:24-46 | any vector of norm at most 1 is completed to a unit quaternion, a longer one gets real part 0, a 4-vector is taken over; bad sizes change nothing |
| `Quaternions.CreateRotationMatrix` | frameworks/native/src/sensor_algorithm.cpp:222-269 | fills the 9- or bordered 16-element matrix of the completed quaternion |
| `Quaternions.GramOfRotation` | frameworks/native/src/sensor_algorithm.cpp:237-262 | how far the rows are from orthonormal, for a quaternion of any norm |
| `Quaternions.RotationIffUnit` | frameworks/native/src/sensor_algorithm.cpp:237-262 | the matrix is a rotation of determinant 1 if and only if the quaternion is a unit one or has no vector part |
| `Quaternions.MatrixIsConjugation` | frameworks/native/src/sensor_algorithm.cpp:237-262 | the matrix of a unit quaternion takes every vector v to q v q* |
| `Quaternions.CreatedMatrixIsRotationIff` | frameworks/native/src/sensor_algorithm.cpp:222-269 | in a caller's terms: a 3-vector makes a rotation if and only if its norm is at most 1 |
| `Quaternions.LongVectorIsNoRotation` | frameworks/native/src/sensor_algorithm.cpp:222-269 | the vector (2, 0, 0) gives a matrix that is no rotation |
| `Inclinations.CreateRotationAndInclination` | frameworks/native/src/sensor_algorithm.cpp:271-356 | on success a rotation takes gravity g to (0, 0, norm of g) and the field to the northern half-plane, and the inclination levels the field if and only if its strength is above the threshold or is 1 / FLT_MAX; failures change nothing |
| `Inclinations.UsableIff` | frameworks/native/src/sensor_algorithm.cpp:279-294 | measurements are accepted if and only if gravity is at least 0.981 and its cross product with the field at least 0.1 long |
| `Inclinations.FrameIsRotation` | frameworks/native/src/sensor_algorithm.cpp:284-335 | east, north and up form an orthonormal basis of determinant 1 |
| `Inclinations.FrameShowsGravity` | frameworks/native/src/sensor_algorithm.cpp:324-335 | R g = (0, 0, norm of g) |
| `Inclinations.FrameShowsField` | frameworks/native/src/sensor_algorithm.cpp:324-335 | R E has no east component, a positive north component and the length of E |
| `Inclinations.InclinationIsRotationIff` | frameworks/native/src/sensor_algorithm.cpp:341-349 | the inclination matrix is a rotation if and only if c^2 + s^2 = 1 |
| `Inclinations.InclinationLevelsIff` | frameworks/native/src/sensor_algorithm.cpp:314-318 | I R E = (0, norm of E, 0) with I a rotation, if and only if the reciprocal really is that of the norm of E |
| `Inclinations.WeakFieldIsNotLevelled` | frameworks/native/src/sensor_algorithm.cpp:314-318 | accepted measurements with |E| = 1e-8 and |g| = 2e7 whose inclination does not level |
| `CoordinateSystems.TransformCoordinateSystemImpl` | frameworks/native/src/sensor_algorithm.cpp:48-92 | accepted codes move and sign the entries of every row in place; others change nothing |
| `CoordinateSystems.TransformCoordinateSystem` | frameworks/native/src/sensor_algorithm.cpp:94-121 | checks sizes and signs of the codes and gives the same result when input and output are equal |
| `CoordinateSystems.AcceptedIff` | frameworks/native/src/sensor_algorithm.cpp:48-58 | codes are accepted exactly if they are not negative, their lowest bytes are documented codes and name different axes |
| `CoordinateSystems.NamedColumns` | frameworks/native/src/sensor_algorithm.cpp:59-85 | the first two entries of a row go to the columns the codes name, with the sign they ask for |
| `CoordinateSystems.ThirdColumn` | frameworks/native/src/sensor_algorithm.cpp:59-65 | the three columns of an accepted pair are different |
| `CoordinateSystems.MoveIsRightMultiplication` | frameworks/native/src/sensor_algorithm.cpp:69-85 | the result is the matrix times the signed permutation matrix of the axes |
| `CoordinateSystems.MoveKeepsInnerProducts` | frameworks/native/src/sensor_algorithm.cpp:69-85 | row inner products are preserved |
| `CoordinateSystems.MoveSignsDet` | frameworks/native/src/sensor_algorithm.cpp:69-85 | the determinant is preserved, or negated exactly when permutation and signs mirror |
| `CoordinateSystems.MirrorsIff` | frameworks/native/src/sensor_algorithm.cpp:51-65 | an accepted pair mirrors if and only if a check on its bits says so |
| `CoordinateSystems.TransformKeepsRotationsIff` | frameworks/native/src/sensor_algorithm.cpp:48-92 | rotations map to rotations for all documented codes, and for other accepted codes if and only if they pass that check |
| `CoordinateSystems.AcceptedPairThatMirrors` | frameworks/native/src/sensor_algorithm.cpp:51-58 | codes with bits above 0x80 are accepted and can turn a rotation into a reflection |
| `GeomagneticFields.GeomagneticField.InitLegendreTable` | frameworks/native/src/geomagnetic_field.cpp:222-253 | whatever the tables held, every cell up to the degree is the polynomial's value and that of its formal derivative |
| `GeomagneticFields.Recurrence` | frameworks/native/src/geomagnetic_field.cpp:242-250 | the derivative recurrence is the formal derivative of the polynomial recurrence under cos' = -sin, sin' = cos |
| `GeomagneticFields.ProductRule` | frameworks/native/src/geomagnetic_field.cpp:235-249 | evaluation of a formal derivative obeys the product rule |
| `GeomagneticFields.GaussHolds` | frameworks/native/src/geomagnetic_field.cpp:222-253 | at every angle, degree and order the two tables satisfy sin P' = n cos P - (n^2 - m^2) / (2n - 1) P_below |
| `GeomagneticFields.GeomagneticField.GetLongitudeTrigonometric` | frameworks/native/src/geomagnetic_field.cpp:178-191 | the halving recurrence fills both tables with the complex powers of the first entry |
| `GeomagneticFields.PowersAdd` | frameworks/native/src/geomagnetic_field.cpp:184-190 | powers add when multiplied, so any split of the index gives the same entry |
| `GeomagneticFields.PowersStayOnTheCircle` | frameworks/native/src/geomagnetic_field.cpp:184-190 | all entries lie on the unit circle if the first one does |

## Left out

- Sockets, epoll, parcels, binder calls, plugins, system parameters and data-share queries: foreign
  calls. `send` and the HDI are oracles; the permission verdict is a parameter.
- Interleavings finer than a service call: each call is one step. `SuspendSensors` does not hold
  `serviceLock_`, so overlapping calls are not covered.
- `Read(std::string &)`, `Write(const std::string &)` and the stream operators: wrappers around the
  modelled reads and writes.
- CircleStreamBuffer and StreamBuffer are one class, `CircleWrite` being the derived class's `Write`.
- A negative `fifoMaxEventCount` and the overflow of `INT64_MIN / -1`: FIFO capacities are
  non-negative.
- The HDI's own timeout handling of a disable: only its answer is modelled.
- The stored events after a whole suspend or death: stated for each sensor switched off
  (`SuspendSensor`, `DisableSensor`), not for their sum.
- Plug events, mock sensors, `ReportOnChangeData`, the dump queue, the command map, logs, dumps and
  system events: not on the modelled paths.
- Shake control, motion transformation and the channel's sensor status: sets given to the event
  filter; the data an app gets after transformation is not modelled.
- SensorDataProcesser is two classes: `EventRouter` picks the channels, `SensorDataProcesser` thins,
  batches and sends. The ring's consumer hands an event on as a whole.
- Weak channel references: a channel is gone when it is not in the given set of live ones. A channel
  with a null cell, which the source never stores, is not modelled.
- `uint64_t` wrap-around of the period counter: the counter is reset at every multiple of the period
  count and stays far below the limit.
- DeliveryTheorems.DeliveryKeepsOrder: for subscribers served one by one; `BatchOrder.OrderKeptIff`
  is the statement for all.
- DeliveryTheorems.EveryPthIsDelivered: stated for successful sends and a constant period count;
  while a failed event waits on the channel, thinning is bypassed.
- Batching.BatchesConserveEvents: stated for successful sends and constant counts; a failed batch
  keeps only its last event, in the place `BatchOrder.OrderKeptIff` gives it.
- GeomagneticFields.GaussHolds: ties the two tables to each other and to the weights; that the
  formal derivative is the analytic one rests on cos' = -sin and sin' = cos.
- IEEE rounding and the float constants' own rounding: exact reals. `atan2`, `asin`, `pow`, the
  altitude, the angle and direction functions, the Schmidt factors and the coefficient tables.
- `Sensor` marshalling: its read order differs from its write order, so no round trip holds.
- The JS, Cangjie and C wrappers, and the agent proxy's caches: sequencing around the modelled core.
