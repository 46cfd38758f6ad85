# vibe-lights: a verified model of the audio-to-lights pipeline

vibe-lights listens to an audio input and drives smart lights to match it.
An audio manager turns each block of samples into three band levels
(low, mid and high frequencies become red, green and blue) and a
brightness. The main manager averages every `samples_to_average` blocks
into one `(brightness, [r, g, b])` sample and puts it on a queue. A backend
process takes samples off that queue and sends them to the lights. There
are three backends:

- Home Assistant over a websocket;
- Home Assistant over its REST API;
- Tuya bulbs on the local network.

Each backend snapshots the lights' state before streaming and writes that
state back when it is killed. Two plain clients (websocket and REST) give
simpler access to the same server.

This Dafny project models those rules and proves what they promise:

- the band-edge search on the exact rfft bin grid;
- the peak-or-average band level, the brightness clamp and the percent
  brightness;
- the averaging buffer, which emits on every N-th call;
- the channel-count check of device setup;
- the websocket auth handshake;
- the "light" entity filter and the 13-attribute snapshot;
- the websocket id counter;
- the shapes of the stream and restore commands, and the restore plan;
- the queue-consumer loop and when it exits;
- the Tuya capture, restore ordering and `nowait` rule;
- the REST client's URL and request sequences.

Network, device and library calls become an *outbox*: a sequence field
holding the messages, requests or bulb calls in the order they are issued.
What the outside world answers (received message types, entity lists, device
reports, queue polls) is given as parameters.

Files and modules:

| file | module | models |
|---|---|---|
| common.dfy | Common | Option, JSON values, Python dicts as insertion-ordered pairs, queue polls, truncating division, the `uint8` cast |
| audio_rules.dfy | AudioRules | band search, band level, channel, brightness, channel-count check, block arithmetic (shared by both audio managers) |
| audio_input_stream_manager.dfy | AudioInputStream | `AudioInputStreamManager`: readings, the averaging buffer, setup, `listen`, `finish` |
| input_stream_audio_manager.dfy | InputStreamAudio | `InputStreamAudioManager`: per-block report, block counter, setup |
| home_assistant.dfy | HomeAssistant | entities and the light filter, the snapshot, restore commands, websocket messages and id numbering, the handshake |
| http_requests.dfy | HttpRequests | REST request shapes and bodies, stream and restore POST runs |
| home_assistant_websocket_process.dfy | WebSocketProcess | `HomeAssistantWebSocketProcess` |
| home_assistant_rest_api_process.dfy | RestApiProcess | `HomeAssistantRestApiProcess` |
| local_tuya_process.dfy | TuyaProcess | `LocalTuyaProcess` |
| home_assistant_websocket.dfy | WebSocketClient | `HomeAssistantWebSocket` |
| home_assistant_rest_api.dfy | RestApiClient | `HomeAssistantRestApi` |

Each class field corresponds to an attribute of the Python class. An
attribute that does not exist until a method assigns it is an `Option`.
Every loop of the source is a `while` loop with invariants, and each
method's contract states its whole new state.

**Behaviour of the code that the model keeps as written:**

- **`samples_to_average`.** The code computes it as
  `int(ms * samplerate / (blocksize * 1000))`. That truncates, and has no
  lower bound: a window shorter than two blocks makes every `listen` call
  average an empty buffer.
- **Channel values.** The code uses `int(255 * v)`, which truncates.
- **Averaging buffer.** The N-th call averages the N - 1 readings already
  held and drops its own.
- **Band search.** There is no guard against an empty band: a band that is
  not found makes the search raise. The model proves that a band which is
  found is never empty.

## Model

| member | source | states |
|---|---|---|
| Common.Put | home_assistant_websocket_process.py:72 | `d[k] = v` grows the dict by one entry exactly when `k` is a new key |
| Common.PutKeys | home_assistant_websocket_process.py:72 | after `d[k] = v` the keys are the old keys, with `k` appended at the end only when it is new |
| Common.PutNewKey | home_assistant_websocket_process.py:72 | a new key is appended after all existing entries |
| Common.PutDistinct | home_assistant_websocket_process.py:69-91 | `d[k] = v` keeps the keys distinct and holds `(k, v)` |
| Common.LookupPut | local_tuya_process.py:78 | after `d[k] = v`, `d[k]` reads `v` and every other key reads what it read before |
| Common.Payload | home_assistant_websocket_process.py:183-190 | a poll yields at most one item, and none exactly on a queue timeout |
| Common.Received | home_assistant_websocket_process.py:180-194 | the samples taken from a run of polls are never more than the polls |
| Common.LoopIterations | home_assistant_websocket_process.py:180-194 | the consumer loop runs `killDuring + 1` iterations exactly when the kill comes within the polls, never more than the polls, and every poll when never killed: a timeout is not an exit |
| Common.TruncDiv | audio_input_stream_manager.py:96 | Python's `int(a / b)`: the quotient rounded toward zero, for negative `a` as well |
| Common.ToUint8 | audio_input_stream_manager.py:145 | the `uint8` cast always gives a byte and is exact for values already in [0, 256) |
| AudioRules.IndexOf | audio_input_stream_manager.py:108-109 | `list.index(v)`: the first position holding `v`; None (`ValueError`) exactly when no position holds it |
| AudioRules.FindBand | audio_input_stream_manager.py:107-111 | `li + 1` is the first bin above `ll` and `ri - 1` the first bin not below `hl`; the search fails exactly when one of them does not exist |
| AudioRules.FirstBins | audio_input_stream_manager.py:107-111 | conversely, the first bin above `ll` and the first bin not below `hl` determine the band |
| AudioRules.BandNonEmpty | audio_input_stream_manager.py:107-111 | for 0 <= ll < hl a found band is a slice in range spanning at least two bins: `0 <= li`, `li + 2 <= ri <= bins` |
| AudioRules.FoundBandsFit | audio_input_stream_manager.py:86-90 | when the low, mid and high bands are all found, each is a non-empty slice of the bins |
| AudioRules.LowBandAt44100 | audio_input_stream_manager.py:87 | at 44100 Hz with 1024-sample blocks the low band is the slice [0:7] |
| AudioRules.Flatten | audio_input_stream_manager.py:117-122 | flattening a band slice keeps the magnitudes non-negative and is non-empty when the slice is |
| AudioRules.FlattenHas | audio_input_stream_manager.py:117-122 | every magnitude of the slice is among the flattened values |
| AudioRules.FlattenFrom | audio_input_stream_manager.py:117-122 | every flattened value is a magnitude of the slice |
| AudioRules.BandMagnitudesAre | audio_input_stream_manager.py:117-122 | the values of band `[lower:upper]` are exactly the magnitudes `magnitude[i][j]` with `lower <= i < upper`, over every input channel |
| AudioRules.Max | audio_input_stream_manager.py:122 | `np.max`: an element of the band that bounds every element |
| AudioRules.MeanAtMostMax | audio_input_stream_manager.py:121-122 | a band's average never exceeds its maximum |
| AudioRules.BandLevel | audio_input_stream_manager.py:121-138 | the level is the maximum when half the maximum exceeds the average, the average otherwise, and lies between the two |
| AudioRules.Channel | audio_input_stream_manager.py:123-125 | `int(255 * v)` for a non-negative level is the floor of `255 * v` |
| AudioRules.BandChannel | audio_input_stream_manager.py:117-125 | a band's channel value is `int(255 * v)`, the floor, where `v` is the maximum of the band's magnitudes when half of it exceeds their average, and the average otherwise; it is non-negative |
| AudioRules.Max3 | audio_input_stream_manager.py:140 | `max(r, g, b)` is one of the three and bounds all three |
| AudioRules.Clamp | audio_input_stream_manager.py:140 | `clamp(lo, x, hi)` lies in [lo, hi], is `x` inside it and the nearer bound outside it |
| AudioRules.ClampedBrightness | audio_input_stream_manager.py:140 | brightness lies in [0, 255] and equals the brightest channel whenever that is at most 255 |
| AudioRules.PercentBrightness | input_stream_audio_manager.py:129 | for byte channels the brightness is the floor of the brightest channel as a percentage of 255: in [0, 100], 100 exactly at 255, 0 exactly up to 2 |
| AudioRules.CheckChannels | audio_input_stream_manager.py:34-58 | a device without input channels aborts; a non-integer, zero or above-maximum count is rejected; any other integer, negatives included, is stored |
| AudioRules.SamplesToAverage | audio_input_stream_manager.py:96 | the number of blocks in the window is truncated: `n * blocksize * 1000 <= ms * samplerate < (n + 1) * blocksize * 1000` |
| AudioRules.SamplesToAverageTruncates | audio_input_stream_manager.py:96 | 4.6875 blocks (100 ms of 1024-sample blocks at 48000 Hz) give 4, not 5 |
| AudioRules.BlockSizeFor | input_stream_audio_manager.py:65 | the block size is `samplerate * ms / 1000` truncated |
| AudioInputStream.ReadingOf | audio_input_stream_manager.py:117-140 | r, g and b are the channel values of the low, mid and high bands; the brightness is in [0, 255] and is the brightest channel when no channel exceeds 255 |
| AudioInputStream.Average | audio_input_stream_manager.py:145 | the averaged reading has four byte components |
| AudioInputStream.AverageChannelsAreMeans | audio_input_stream_manager.py:145 | when the buffered r, g and b are bytes, each averaged channel is the truncated mean of that channel over the buffer, with no wrap-around |
| AudioInputStream.AverageBrightnessIsMean | audio_input_stream_manager.py:145 | for readings of this model the averaged brightness is the truncated mean brightness of the buffer, with no wrap-around |
| AudioInputStream.QuotientBounds | audio_input_stream_manager.py:145 | the truncated mean of n values in [0, m] lies in [0, m] |
| AudioInputStream.Step | audio_input_stream_manager.py:142-148 | one `listen` call appends exactly when fewer than N - 1 readings are held, otherwise emits the average of the held readings and clears the buffer; it raises exactly on an empty buffer with N <= 1; the buffer stays within N - 1 entries |
| AudioInputStream.FeedEveryNth | audio_input_stream_manager.py:142-148 | with N >= 2, after qN + rem calls q averages have been emitted, the j-th being the average of calls jN .. jN + N - 2 (each emitting call's own reading is dropped), and the buffer holds the last rem readings |
| AudioInputStream.FeedCounts | audio_input_stream_manager.py:142-148 | with N >= 2 the number of averages is the number of calls divided by N and the buffer holds the remainder |
| AudioInputStream.SmallWindowRaises | audio_input_stream_manager.py:142-145 | with N <= 1 a call on an empty buffer averages nothing and raises |
| AudioInputStream.AudioInputStreamManager.constructor | audio_input_stream_manager.py:9 | a manager starts with no device, sample rate, channels, stream or bands, and an empty buffer |
| AudioInputStream.AudioInputStreamManager.InitializeInputDevice | audio_input_stream_manager.py:10-58 | an invalid device reply changes nothing; otherwise device and sample rate are stored and the channel count is stored exactly when the check accepts it |
| AudioInputStream.AudioInputStreamManager.BuildStream | audio_input_stream_manager.py:60-96 | when the sample rate, device or channel count was never stored the call raises before any stream exists and nothing changes; otherwise the stream is opened, and the call succeeds exactly when all three bands are found, then storing the bands, the callbacks, an empty buffer and the truncated `samples_to_average`; on a failed search nothing after the stream changes |
| AudioInputStream.AudioInputStreamManager.Listen | audio_input_stream_manager.py:113-148 | a block becomes its reading, which goes through one buffer step; the callback receives the average exactly when one is emitted and a callback is set |
| AudioInputStream.AudioInputStreamManager.Accumulate | audio_input_stream_manager.py:142-148 | the buffer moves by one step and the buffer bound is kept; the callback gets the average only on emission |
| AudioInputStream.AudioInputStreamManager.Finish | audio_input_stream_manager.py:150-156 | the finished callback runs once if set, and the stream is closed |
| InputStreamAudio.ReportOf | input_stream_audio_manager.py:106-129 | r, g and b are the `uint8` casts of the low, mid and high band channel values, so bytes; the brightness is the floor percentage of the brightest channel, 100 exactly at 255 |
| InputStreamAudio.ReportAgreesWithReading | input_stream_audio_manager.py:110-129 | when no channel exceeds 255, both managers compute the same channels, and this manager's brightness is the other's brightness in percent |
| InputStreamAudio.InputStreamAudioManager.constructor | input_stream_audio_manager.py:6-8 | the block count starts at 0 |
| InputStreamAudio.InputStreamAudioManager.InitializeDevice | input_stream_audio_manager.py:10-58 | the same device and channel-count rules as the main manager |
| InputStreamAudio.InputStreamAudioManager.BuildStream | input_stream_audio_manager.py:60-86 | when the sample rate, device or channel count was never stored the call raises before any stream exists and nothing changes; otherwise the block size is the truncated window length, and the call succeeds exactly when that is positive and all bands are found, then storing both |
| InputStreamAudio.InputStreamAudioManager.Callback | input_stream_audio_manager.py:102-133 | a block yields its report and the count goes up by exactly one |
| InputStreamAudio.InputStreamAudioManager.FinishedCallback | input_stream_audio_manager.py:135-137 | it reports the number of blocks handled |
| HomeAssistant.LightEntities | home_assistant_websocket_process.py:100-102 | the filter never yields more entities than it is given |
| HomeAssistant.LightEntitiesFilter | home_assistant_websocket_process.py:100-102 | an entity is kept exactly when it is in the state list and its id starts with "light" |
| HomeAssistant.LightEntitiesAppend | home_assistant_websocket_process.py:100-102 | the filter keeps order: filtering a concatenation concatenates the filtered parts |
| HomeAssistant.LightIdsAreLights | home_assistant_websocket_process.py:108 | the light list holds the id of every light entity, and each id in it starts with "light" and belongs to a reported entity |
| HomeAssistant.AllPresentMeans | home_assistant_websocket_process.py:74-88 | a record can be built exactly when every named attribute is present |
| HomeAssistant.ProjectMeans | home_assistant_websocket_process.py:74-88 | the copied attributes are exactly the named ones, with their values |
| HomeAssistant.CaptureCopiesAttributes | home_assistant_websocket_process.py:72-89 | a record exists exactly when all 13 attributes are present; it keeps the state and exactly those attributes with their values |
| HomeAssistant.StoreSucceedsIffCaptured | home_assistant_websocket_process.py:71-91 | the snapshot is stored exactly when every light entity yields a record |
| HomeAssistant.MissingKeyFails | home_assistant_websocket_process.py:71-91 | one entity missing an attribute (`KeyError`) makes the whole store fail |
| HomeAssistant.StoreKeysDistinct | home_assistant_websocket_process.py:69-91 | the snapshot never holds an entity id twice; a repeated id overwrites its entry |
| HomeAssistant.SnapshotKeysCover | home_assistant_websocket_process.py:71-72 | every stored entity's id is a key of the snapshot |
| HomeAssistant.SnapshotKeysFromStates | home_assistant_websocket_process.py:71-72 | every key of the snapshot is the id of a stored entity |
| HomeAssistant.SnapshotFollowsStates | home_assistant_websocket_process.py:69-91 | with distinct ids the snapshot is one `(entity_id, record)` entry per entity, in server order |
| HomeAssistant.RestoreCommands | home_assistant_websocket_process.py:143-174 | the restore plan has at most one command per snapshot entry |
| HomeAssistant.RestoreOnePerEntry | home_assistant_websocket_process.py:144-174 | there is exactly one command per "on" or "off" entry, in snapshot order, and it is that entry's command |
| HomeAssistant.RestoreReplaysCapture | home_assistant_websocket_process.py:145-171 | a light captured "on" with attributes A is restored by a turn_on replaying exactly A; one captured "off" by a turn_off |
| HomeAssistant.RestoreSkipsOtherStates | home_assistant_websocket_process.py:144-174 | a light in any other state gets no command |
| HomeAssistant.RestoreCommandsFrom | home_assistant_websocket_process.py:144-174 | every restore command addresses a light of the snapshot |
| HomeAssistant.Consecutive | home_assistant_websocket_process.py:26 | the id run `lo .. hi - 1` has `hi - lo` ids |
| HomeAssistant.ConsecutiveIncreasing | home_assistant_websocket_process.py:26 | the ids of a run lie in [lo, hi) and are strictly increasing, hence unique |
| HomeAssistant.IdsBelowMeans | home_assistant_websocket_process.py:96-97 | the class invariant means the ids sent so far are exactly 1, 2, ..., id - 1, in order |
| HomeAssistant.NumberedStream | home_assistant_websocket_process.py:126-140 | one message per streamed sample |
| HomeAssistant.NumberedRestore | home_assistant_websocket_process.py:143-174 | one message per restore command |
| HomeAssistant.NumberedStreamIds | home_assistant_websocket_process.py:129-138 | streamed messages carry consecutive ids from the first one |
| HomeAssistant.NumberedRestoreIds | home_assistant_websocket_process.py:147-173 | restore messages carry consecutive ids from the first one |
| HomeAssistant.NumberedStreamAt | home_assistant_websocket_process.py:126-140 | the j-th streamed message is call_service light.turn_on with `{brightness, rgb_color}` of the j-th sample, targeting all lights, under id `first + j` |
| HomeAssistant.NumberedRestoreAt | home_assistant_websocket_process.py:144-174 | the j-th restore message is its command's turn_off (no data) or turn_on (captured attributes) for that single light, under id `first + j` |
| HomeAssistant.PushIds | home_assistant_websocket_process.py:180-194 | everything the push loop sends, restore included, carries consecutive ids |
| HomeAssistant.Handshake | home_assistant_websocket_process.py:42-66 | auth is sent exactly after "auth_required"; the status becomes true exactly when the second message is "auth_ok"; it is left unchanged exactly when the second message is some other type |
| HomeAssistant.WebSocketUrl | home_assistant_websocket_process.py:22 | the URL is `"ws://" + ip + ":" + port + "/api/websocket"`: each of the five parts is stated at its position |
| HttpRequests.ReplayBodyJson | home_assistant_rest_api_process.py:129 | `{"entity_id": light, **attributes}` has exactly the captured keys plus `entity_id`, each with its captured value |
| HttpRequests.SnapshotReplayAddressesLight | home_assistant_rest_api_process.py:126-129 | a replay built from a 13-attribute snapshot addresses its own light |
| HttpRequests.StreamRequests | home_assistant_rest_api_process.py:147-161 | one POST per streamed sample |
| HttpRequests.RestoreRequests | home_assistant_rest_api_process.py:113-136 | one POST per restore command |
| HttpRequests.StreamRequestsAt | home_assistant_rest_api_process.py:93-104 | the j-th stream POST goes to turn_on with `{entity_id: all lights, brightness, rgb_color}` of the j-th sample |
| HttpRequests.RestoreRequestsAt | home_assistant_rest_api_process.py:113-136 | the j-th restore POST is turn_off `{entity_id}` or turn_on `{entity_id, **attributes}` for the j-th command |
| HttpRequests.StreamRequestsAppend | home_assistant_rest_api_process.py:147-161 | streaming two runs of samples sends the POSTs of their concatenation |
| HttpRequests.RestoreAgreesWithWebSocket | home_assistant_rest_api_process.py:113-136 | the REST restore and the websocket restore agree command for command: same service, same single light, same replayed attributes |
| HttpRequests.PushRequestsShape | home_assistant_rest_api_process.py:147-161 | the push loop POSTs each sample taken, in order, and, when killed, the restore POSTs after them in command order |
| RestApiClient.RStripSlash | home_assistant_rest_api.py:9 | `rstrip("/")` yields a prefix of the input with no trailing slash |
| RestApiClient.RStripSlashRemovesSlashes | home_assistant_rest_api.py:9 | only slashes are removed |
| RestApiClient.RStripSlashIdempotent | home_assistant_rest_api.py:9 | stripping twice strips nothing more |
| RestApiClient.RestApiUrl | home_assistant_rest_api.py:9 | the base URL ends in "/api"; what precedes it is a prefix of the server URL that does not end in "/", and every character of the server URL after that prefix is "/" |
| RestApiClient.RestApiUrlIgnoresTrailingSlashes | home_assistant_rest_api.py:9 | any number of trailing slashes on the server URL gives the same base URL |
| RestApiClient.ControlRequests | home_assistant_rest_api.py:24-35 | one colour POST per light |
| RestApiClient.OffRequests | home_assistant_rest_api.py:37-47 | one turn_off POST per light |
| RestApiClient.HomeAssistantRestApi.constructor | home_assistant_rest_api.py:8-13 | the base URL is built from the server URL and the Authorization header is `"Bearer " + token` |
| RestApiClient.HomeAssistantRestApi.FetchAllLights | home_assistant_rest_api.py:15-22 | GET /states, then the ids of the "light" entities, in order |
| RestApiClient.HomeAssistantRestApi.ControlLights | home_assistant_rest_api.py:24-35 | exactly the colour POSTs of the light list, in order, are issued |
| RestApiClient.HomeAssistantRestApi.TurnLightsOff | home_assistant_rest_api.py:37-47 | exactly the turn_off POSTs of the light list, in order, are issued |
| RestApiClient.ControlRequestsOnePerLight | home_assistant_rest_api.py:24-35 | each listed light gets a colour POST, and every POST is a turn_on whose body is exactly `{entity_id, rgb_color}` for a listed light |
| RestApiClient.OffRequestsOnePerLight | home_assistant_rest_api.py:37-47 | each listed light gets a turn_off POST, and every POST's body is exactly `{entity_id}` for a listed light |
| RestApiProcess.RestProcessUrl | home_assistant_rest_api_process.py:21 | the URL is `"http://" + ip + ":" + port + "/api"`: each of the five parts is stated at its position |
| RestApiProcess.BearerHeader | home_assistant_rest_api_process.py:23 | the Authorization header is `"Bearer " + key` |
| RestApiProcess.HomeAssistantRestApiProcess.constructor | home_assistant_rest_api_process.py:13-27 | the URL and the Authorization header are set, the status is false and nothing has been issued |
| RestApiProcess.HomeAssistantRestApiProcess.Connect | home_assistant_rest_api_process.py:37-43 | the client opens and the status becomes true, unconditionally |
| RestApiProcess.HomeAssistantRestApiProcess.StoreInitialLightStates | home_assistant_rest_api_process.py:45-68 | the loop stores exactly the snapshot of the entities, and fails without storing on a missing attribute |
| RestApiProcess.HomeAssistantRestApiProcess.FetchLightStates | home_assistant_rest_api_process.py:70-82 | GET /states; on success the snapshot of the light entities and their ids are stored |
| RestApiProcess.HomeAssistantRestApiProcess.FetchLightActions | home_assistant_rest_api_process.py:84-91 | GET /services is issued |
| RestApiProcess.HomeAssistantRestApiProcess.SendLightState | home_assistant_rest_api_process.py:93-108 | the sample's stream POST is issued; errors are swallowed, so nothing else changes |
| RestApiProcess.HomeAssistantRestApiProcess.RecoverLightState | home_assistant_rest_api_process.py:110-145 | the loop issues exactly the restore POSTs of the snapshot's plan, in order |
| RestApiProcess.HomeAssistantRestApiProcess.CloseConnection | home_assistant_rest_api_process.py:163-165 | the client closes and the status becomes false |
| RestApiProcess.HomeAssistantRestApiProcess.Kill | home_assistant_rest_api_process.py:191-199 | the restore POSTs come first, then the close, then the loop stops |
| RestApiProcess.HomeAssistantRestApiProcess.PushStates | home_assistant_rest_api_process.py:147-161 | a timeout does not end the loop; it ends after the iteration in which the status turned false; it POSTs every sample taken and, when killed, the restore plan |
| RestApiProcess.HomeAssistantRestApiProcess.Iterate | home_assistant_rest_api_process.py:148-161 | one iteration appends the POST of its sample and, when the kill comes now, the restore POSTs, and stops exactly then |
| RestApiProcess.HomeAssistantRestApiProcess.Dispatch | home_assistant_rest_api_process.py:150-155 | a sample is POSTed, a timeout POSTs nothing |
| RestApiProcess.HomeAssistantRestApiProcess.KillPoint | home_assistant_rest_api_process.py:158-161 | the status check stops the loop exactly after a kill |
| RestApiProcess.HomeAssistantRestApiProcess.Run | home_assistant_rest_api_process.py:175-189 | the session issues GET /states, then (if the snapshot succeeded) GET /services and the push loop's POSTs |
| WebSocketClient.HomeAssistantWebSocket.constructor | home_assistant_websocket.py:8-14 | the URL is built from ip and port and the id starts at 1 |
| WebSocketClient.HomeAssistantWebSocket.Connect | home_assistant_websocket.py:16-31 | auth is sent exactly after "auth_required"; it raises exactly when a receive fails; otherwise it returns true for "auth_ok", false for "auth_invalid" and None for anything else |
| WebSocketClient.HomeAssistantWebSocket.FetchLightStates | home_assistant_websocket.py:33-45 | get_states takes the current id, which goes up by one; `lights` is the ordered list of "light" entity ids |
| WebSocketClient.HomeAssistantWebSocket.FetchLightActions | home_assistant_websocket.py:47-52 | get_services takes the current id, which goes up by one |
| WebSocketClient.HomeAssistantWebSocket.SendLightState | home_assistant_websocket.py:61-75 | call_service light.turn_on with `{brightness, rgb_color}` for all lights takes the current id, which goes up by one; ids stay 1, 2, ... in order |
| WebSocketClient.HomeAssistantWebSocket.CloseSocket | home_assistant_websocket.py:77-78 | the socket is closed |
| WebSocketProcess.HomeAssistantWebSocketProcess.constructor | home_assistant_websocket_process.py:14-26 | the URL is built, the status is false and the id starts at 1 |
| WebSocketProcess.HomeAssistantWebSocketProcess.Connect | home_assistant_websocket_process.py:39-66 | the socket opens; auth is sent and the status set as the handshake decides |
| WebSocketProcess.HomeAssistantWebSocketProcess.StoreInitialLightStates | home_assistant_websocket_process.py:68-93 | the loop stores exactly the snapshot of the entities, and fails without storing on a missing attribute |
| WebSocketProcess.HomeAssistantWebSocketProcess.FetchLightStates | home_assistant_websocket_process.py:95-110 | get_states takes the current id; on success the snapshot of the light entities and their ids are stored |
| WebSocketProcess.HomeAssistantWebSocketProcess.FetchLightActions | home_assistant_websocket_process.py:112-117 | get_services takes the current id, which goes up by one |
| WebSocketProcess.HomeAssistantWebSocketProcess.SendLightState | home_assistant_websocket_process.py:126-140 | the sample's turn_on for all lights takes the current id, which goes up by one, and the ids stay 1, 2, ... in order |
| WebSocketProcess.HomeAssistantWebSocketProcess.RestoreMessages | home_assistant_websocket_process.py:143-174 | the loop builds exactly the restore plan's messages, in order, numbered on from the current id |
| WebSocketProcess.HomeAssistantWebSocketProcess.RecoverInitialState | home_assistant_websocket_process.py:142-178 | the restore messages are sent and the ids stay 1, 2, ... in order |
| WebSocketProcess.HomeAssistantWebSocketProcess.CloseSocket | home_assistant_websocket_process.py:196-200 | the socket closes and the status becomes false |
| WebSocketProcess.HomeAssistantWebSocketProcess.Kill | home_assistant_websocket_process.py:235-243 | the restore comes first, then the close, then the loop stops |
| WebSocketProcess.HomeAssistantWebSocketProcess.PushStates | home_assistant_websocket_process.py:180-194 | a timeout does not end the loop; it ends after the iteration in which the status turned false; it sends every sample taken with consecutive ids and, when killed, the restore messages numbered on from them |
| WebSocketProcess.HomeAssistantWebSocketProcess.Iterate | home_assistant_websocket_process.py:181-194 | one iteration appends its sample's message and, when the kill comes now, the restore messages, and stops exactly then |
| WebSocketProcess.HomeAssistantWebSocketProcess.Dispatch | home_assistant_websocket_process.py:183-188 | a sample is sent under the next id, a timeout sends nothing |
| WebSocketProcess.HomeAssistantWebSocketProcess.KillPoint | home_assistant_websocket_process.py:191-194 | the status check stops the loop exactly after a kill |
| WebSocketProcess.HomeAssistantWebSocketProcess.Run | home_assistant_websocket_process.py:212-233 | without a successful handshake nothing but the auth message is sent and no id is used; otherwise the session follows |
| WebSocketProcess.HomeAssistantWebSocketProcess.Session | home_assistant_websocket_process.py:222-233 | get_states, then (if the snapshot succeeded) get_services and the push loop's messages, all with consecutive ids |
| TuyaProcess.KeptDevices | local_tuya_process.py:45-56 | never more records than devices |
| TuyaProcess.KeptDevicesAppend | local_tuya_process.py:46-56 | keeping is order-preserving over a concatenation |
| TuyaProcess.KeptDevicesFilter | local_tuya_process.py:45-56 | exactly the "dj" devices are kept, each projected to `{id, name, ip_address, local_key, version}` |
| TuyaProcess.Bulbs | local_tuya_process.py:67-75 | one bulb per kept device |
| TuyaProcess.ConnectCalls | local_tuya_process.py:67-80 | two calls per device: the status query and the switch to colour mode |
| TuyaProcess.CaptureAllKeys | local_tuya_process.py:77-78 | every connected device's id is a key of the captured states |
| TuyaProcess.CaptureAllCovers | local_tuya_process.py:67-78 | every bulb has captured data points to be restored from |
| TuyaProcess.CaptureAllRecalls | local_tuya_process.py:77-78 | with distinct ids, device i's captured data points are the ones it reported |
| TuyaProcess.ColourCalls | local_tuya_process.py:90-100 | one colour call per bulb |
| TuyaProcess.RecoverCalls | local_tuya_process.py:103-112 | one restore call per bulb |
| TuyaProcess.CloseCalls | local_tuya_process.py:131-132 | one close per bulb |
| TuyaProcess.FannedAppend | local_tuya_process.py:116-128 | the fan-outs of two runs of samples are those of their concatenation |
| TuyaProcess.FannedShape | local_tuya_process.py:90-100 | every streamed call sets `{"21": "colour", "24": value}` on a listed bulb without waiting; one fan-out of all bulbs per sample |
| TuyaProcess.RecoverWaitsOnlyLast | local_tuya_process.py:106-109 | `nowait` is false for exactly the last bulb |
| TuyaProcess.LocalTuyaProcess.constructor | local_tuya_process.py:14-24 | the status is false and nothing is kept or issued |
| TuyaProcess.LocalTuyaProcess.Initialize | local_tuya_process.py:42-56 | the loop keeps exactly the projected "dj" devices, in order |
| TuyaProcess.LocalTuyaProcess.Connect | local_tuya_process.py:63-82 | one bulb per device, each device's reported data points stored under its id, the status query and colour mode per device, then the status is true; every bulb can be restored |
| TuyaProcess.LocalTuyaProcess.SendLightState | local_tuya_process.py:84-100 | the same colour values go to every bulb, in order, none waiting |
| TuyaProcess.LocalTuyaProcess.RecoverLightState | local_tuya_process.py:102-114 | every bulb, in order, gets its own captured data points back; only the last call waits |
| TuyaProcess.LocalTuyaProcess.CloseConnection | local_tuya_process.py:130-136 | every bulb is closed, then the status becomes false |
| TuyaProcess.LocalTuyaProcess.Kill | local_tuya_process.py:160-165 | the restore comes first, then the closes |
| TuyaProcess.LocalTuyaProcess.PushStates | local_tuya_process.py:116-128 | a timeout does not end the loop; it ends after the iteration in which the status turned false; it fans out every sample taken and, when killed, the restore and the closes |
| TuyaProcess.LocalTuyaProcess.Iterate | local_tuya_process.py:117-128 | one iteration appends its sample's fan-out and, when the kill comes now, the restore and closes, and stops exactly then |
| TuyaProcess.LocalTuyaProcess.Dispatch | local_tuya_process.py:119-122 | a sample's colour goes to every bulb, a timeout sends nothing |
| TuyaProcess.LocalTuyaProcess.KillPoint | local_tuya_process.py:125-128 | the status check stops the loop exactly after a kill |
| TuyaProcess.LocalTuyaProcess.Run | local_tuya_process.py:151-158 | the kept devices are connected, "ready" is sent, then the push loop runs; the calls are the connect calls followed by the push loop's |

## Left out

- FFT, Hann window and magnitudes. These are floating-point numerics. The model starts from per-bin, per-channel magnitudes given as exact non-negative reals, and band averages are exact real means.
- Out-of-range `uint8` casts of floats. `ToUint8` models the wrap modulo 256 for non-negative integers only. Negative, infinite or NaN values are not modelled.
- `utils.clamp` is not part of this model. It is taken to be the standard min/max clamp.
- sounddevice stream construction, device queries and `input()` prompts. Their answers are parameters: the device reply (None when not an integer), the default sample rate, the maximum channel count and the channel reply. The library's own checks of the block size and channel count are not modelled.
- AudioInputStream.AudioInputStreamManager.BuildStream: the `ms` window is an integer here, where the source accepts a float.
- InputStreamAudio.InputStreamAudioManager.BuildStream: the `ms` window is an integer here, where the source accepts any number in `int(self.samplerate * ms / 1000)`.
- InputStreamAudio.InputStreamAudioManager.BuildStream and AudioRules.FindBand: bin frequencies are exact rationals `k * samplerate / blocksize` here, while the source compares the floats of `np.fft.rfftfreq`. A bin that lies exactly on a band limit can be one ulp above it in floats, which moves that band edge down by one bin. Example: at 44100 Hz and a 60 ms window (block size 2646), bins 15 and 240 are exactly 250 Hz and 4000 Hz, but as floats they are 250.00000000000003 and 4000.0000000000005. The source's mid band is then (14, 241) and its high band (239, 721), where the model gives (15, 241) and (240, 721). With the fixed 1024-sample blocks of the main manager the two grids agree on every limit for integer sample rates from 8000 to 200000 Hz.
- Both REST classes also send the header `"content-type": "application/json"`; only the Authorization header is modelled.
- Printing and log messages, including the "Initial State Restored" report after a failed gather.
- websockets, httpx and requests. Sent messages are an outbox of datatypes, with no JSON serialisation. Received messages are reduced to their `type` or their `result` list.
- The server's HTTP responses and status codes are not modelled.
- RestApiProcess.HomeAssistantRestApiProcess.SendLightState: a `TimeoutException` or `RemoteProtocolError` is swallowed by the source, so the model treats every request as issued. Any other exception is not modelled.
- RestApiProcess.HomeAssistantRestApiProcess.RecoverLightState: the same swallowing applies to the gathered restore. A partially failed gather is not modelled.
- asyncio, threads and multiprocessing.
  - Tasks scheduled with `call_soon_threadsafe` are taken to run in the order they were scheduled, and before a kill that comes after them.
  - The id a websocket stream message takes is its position in that order.
  - The concurrent sends of `asyncio.gather` are recorded in the order they were built.
- The kill listeners. The kill is modelled as happening once, during push-loop iteration `killDuring`, after that iteration's sample is dispatched. A `killDuring` past the polls means the process is never killed.
- The REST listener's missing `break`, which would let a second "kill" message run `kill` again, is not modelled.
- The push loop is bounded by the given sequence of polls. An unkilled loop with no more polls would go on polling forever.
- WebSocketProcess.HomeAssistantWebSocketProcess.FetchLightActions: the `KeyError` when the services have no "light" domain is not modelled. The discarded answer is not modelled either.
- WebSocketClient.HomeAssistantWebSocket.FetchLightActions: the same `KeyError` is not modelled.
- RestApiProcess.HomeAssistantRestApiProcess.FetchLightActions: the `IndexError` when no service has the "light" domain is not modelled.
- A received message without a `type` key, or an answer without a `result` key, is not modelled (that would be a `KeyError`).
- WebSocketClient: `listen` only prints the received events and is not modelled.
- tinytuya.
  - The colour conversion of a sample (`rgb_to_hexvalue`, `hexvalue_to_hsv`, `hsv_to_hexvalue` and `brightness / 1000`) is the parameter `colour`.
  - `wizard` and the device scan (`SCANTIME`) are not modelled.
  - The configuration and device JSON files, and their removal, are not modelled.
  - `BulbDevice` network behaviour is not modelled. A bulb's `status()["dps"]` is given as a parameter.
  - The `sleep(0.25)` between restore and close is not modelled.
- `os.getenv` values are parameters.
- main.py, websocket_queue_loop.py and basic_audio_manager.py are not part of this model.
- Python's `self.close()` of the process object after `kill` is not modelled.
