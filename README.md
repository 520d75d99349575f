# Whac-A-Mole, modelled in Dafny

Whac-A-Mole is a small game system built from four parts:

- **The firmware** (`emb/`) runs on a MAX32655 board under FreeRTOS. It plays the game:
  - eight levels of ten pops each;
  - an LED lights a mole, and the player presses the matching button on an I/O expander.

  It writes one JSON line per game event to its UART. It reads one-byte commands from the UART: `I`, `P`, `R`, `S`, `D` and `1`..`8`.
- **The agent** (`agent/`) is a Python bridge between that serial line and an MQTT broker:
  - it identifies the device;
  - it publishes the device's events on `whac/<device_id>/game_events`, with status messages on `whac/<device_id>/state`;
  - it forwards commands from `whac/<device_id>/commands` and `whac/all/commands` to the UART.
- **The dashboard** (`dashboard/`) keeps a registry of devices from the MQTT traffic, a top-five leaderboard of finished sessions, and an HTTP layer that publishes commands.
- **The cloud backend** (`cloud/`) stores sessions and answers configuration requests:
  - it stores the sessions reported on `.../events` topics;
  - it answers `.../config_request` with a merged configuration, made of the defaults overlaid with the device's overrides.

The model has one Dafny module per source file. Shared helpers live in `common.dfy`:
- `Wrappers`: Option and Result;
- `Strings`: Python's `strip`, `int`, `split` and `str.find`, on ASCII;
- `Json`: JSON values, with objects as maps;
- `StableSort`: Python's stable `sorted(..., reverse=True)` by an integer key.

The model keeps the form of the source:
- Objects that update their fields become classes with `modifies` frames: `Bridge`, `Registry`, `Leaderboard`, `DataStore`, `ConfigManager`, and the firmware's tasks and handlers.
- Each method is specified by a function of its inputs and its old state.
- Pure helpers become functions, and the promises the code makes become lemmas about those functions.

Everything outside the code is passed in as a parameter. This covers:
- clock readings;
- serial reads and the success of each write;
- paho return codes;
- what `json.loads` makes of a line;
- environment variables;
- the contents of a UART receive FIFO.

## Model

| member | source | states |
|---|---|---|
| AgentMqtt.TopicSegments | agent/src/agent/mqtt.py:152 | a topic `<ns>/<device_id>/<channel>` built from '/'-free parts splits back into exactly those three parts |
| AgentMqtt.TopicsDistinct | agent/src/agent/mqtt.py:152 | publishes on different channels never share a topic |
| AgentMqtt.Pub | agent/src/agent/mqtt.py:140-155 | the payload goes out unchanged at qos 2, not retained; when the namespace, the device_id text and the channel contain no '/', the topic splits back into exactly those three levels, in that order |
| AgentMqtt.PublishStateShape | agent/src/agent/mqtt.py:111-118 | a status message goes to the "state" channel and its payload has exactly the keys device_id, ts and status |
| AgentMqtt.PublishEventMerge | agent/src/agent/mqtt.py:120-134 | an event message goes to "game_events"; its keys are the event's keys plus device_id and ts; the bridge's device_id and ts override the event's, and every other field is kept |
| AgentMqtt.Will | agent/src/agent/mqtt.py:72-75 | the last will is the message `publish_state` would send for the will status |
| AgentMqtt.Connect | agent/src/agent/mqtt.py:78-93 | the network loop starts only after the broker connect succeeded; the result is true iff both calls succeeded |
| AgentMqtt.Disconnect | agent/src/agent/mqtt.py:95-109 | `loop_stop` is called iff the broker disconnect succeeded; the client reaches "Disconnected" iff both calls return success, which implies the loop was stopped |
| AgentMqtt.OnConnect | agent/src/agent/mqtt.py:176-191 | a failed connect subscribes to nothing; otherwise it subscribes to the device's and the broadcast commands topics, in that order, at qos 2 |
| AgentMqtt.SubscriptionsAreCommandTopics | agent/src/agent/mqtt.py:186-191 | every subscription is a "commands" topic of the namespace, addressed to this device or to "all" |
| AgentEnv.EnsureValidPort | agent/src/agent/misc/env.py:20-36 | an accepted port lies in 1..65535 and is what `int` reads from the value; every error names the variable |
| AgentEnv.PortVerdicts | agent/src/agent/misc/env.py:20-36 | each of the four verdicts (not set, not an integer, out of range, the port) holds iff its condition holds |
| AgentEnv.PortRoundTrip | agent/src/agent/misc/env.py:26-36 | every valid port written in decimal, with any blank padding, is accepted as itself |
| AgentEnv.EnsureValidBroker | agent/src/agent/misc/env.py:39-45 | accepted iff set and not blank; the value is returned unstripped; otherwise "not set" |
| AgentEnv.Report | agent/src/agent/misc/env.py:66 | the report is empty iff there are no errors |
| AgentEnv.Collected | agent/src/agent/misc/env.py:51-63 | no error iff both variables are accepted; otherwise exactly one error per refused variable and no other, the broker's first and the port's last |
| AgentEnv.GetEnvVars | agent/src/agent/misc/env.py:48-69 | loads iff both validators accept; it then returns the raw broker and the valid port; otherwise it exits with status 1 and a non-empty report of the collected errors |
| AgentBridge.BoardCommandKeys | agent/src/agent/bridge.py:68-82 | the command table's keys are exactly the one-byte payloads I, P, R, S, D and 1..8 |
| AgentBridge.DecodeAsciiChars | agent/src/agent/bridge.py:293-294 | ASCII decoding keeps the length and maps each byte to the character with the same code |
| AgentBridge.ReadJsonlCases | agent/src/agent/bridge.py:269-314 | a serial fault, an empty read, a non-ASCII line and a non-object line each give their own outcome, iff their condition holds; only a JSON object is returned, the one decoded from the stripped line |
| AgentBridge.CommandEffect | agent/src/agent/bridge.py:234-253 | only a table key reaches the serial write, and is written exactly once; the pause flag flips iff "P" was written successfully |
| AgentBridge.NoAnswerFrom | agent/src/agent/bridge.py:213-217 | a read past the deadline, or a serial or decode error, leaves the handshake without an answer |
| AgentBridge.AnswerHere | agent/src/agent/bridge.py:224-227 | an identify object read in time is the handshake's one answer |
| AgentBridge.AnswerShift | agent/src/agent/bridge.py:218-229 | an empty read, invalid JSON or another object read in time passes the question to the next read |
| AgentBridge.HandshakeFinds | agent/src/agent/bridge.py:212-232 | the handshake loop returns a device_id iff some read answers it, and then that answer's device_id |
| AgentBridge.Handshake | agent/src/agent/bridge.py:204-232 | `_request_device_id` fails when the 'I' write fails; otherwise it succeeds iff an identify answer arrives in time after only skippable reads, and returns that answer's device_id |
| AgentBridge.AnswerIsFirst | agent/src/agent/bridge.py:224-227 | only the first identify answer can be the one returned |
| AgentBridge.ReconnectFrom | agent/src/agent/bridge.py:179-202 | success needs an attempt made in time that opened the port, and is followed by exactly one 'I' write; failure comes only past the 600 s timeout, after attempts that all failed to open |
| AgentBridge.ExitSticky | agent/src/agent/bridge.py:155-166 | once the read loop has returned, later inputs change nothing |
| AgentBridge.TickKeepsLooping | agent/src/agent/bridge.py:167-177 | a read without a serial fault never ends the loop; an object is published once; an "online" heartbeat is sent iff 20 s have passed, and the timer is then reset |
| AgentBridge.FaultOutcomes | agent/src/agent/bridge.py:158-166 | on a serial fault: an unplugged port ends the loop silently; a reconnect is followed by a waited "online" and the loop continues; otherwise "serial_error" is published and the loop ends |
| AgentBridge.StepEvents | agent/src/agent/bridge.py:170-172 | what one pass publishes on game_events is exactly the object it read, if any |
| AgentBridge.ForwardedInOrder | agent/src/agent/bridge.py:146-177 | while the loop runs, every object read is published on game_events once, in read order, and nothing else is published there |
| AgentBridge.StepKeepsPauseTracking | agent/src/agent/bridge.py:251-253 | one pass or command keeps the bridge's pause flag equal to the parity of successful 'P' writes |
| AgentBridge.LoopKeepsPauseTracking | agent/src/agent/bridge.py:146-177 | the whole read loop keeps the pause flag in step with the device |
| AgentBridge.CleanupEffect | agent/src/agent/bridge.py:342-360 | an unplugged device gets no writes; otherwise 'P' is written first when paused, then always 'D'; the flag is cleared only by a successful 'P' |
| AgentBridge.CleanupKeepsPauseTracking | agent/src/agent/bridge.py:353-356 | the cleanup keeps the pause flag in step with the device too |
| AgentBridge.Bridge.constructor | agent/src/agent/bridge.py:94-104 | not paused, nothing sent yet |
| AgentBridge.Bridge.SerialWrite | agent/src/agent/bridge.py:316-334 | the write is attempted once and its success reported |
| AgentBridge.Bridge.HandleCommand | agent/src/agent/bridge.py:234-253 | the new flag and the writes are those of `CommandEffect` |
| AgentBridge.Bridge.RequestDeviceId | agent/src/agent/bridge.py:204-232 | one 'I' write; succeeds iff `Handshake` finds an answer, and then stores its device_id; otherwise the device_id is unchanged |
| AgentBridge.Bridge.AwaitIdentify | agent/src/agent/bridge.py:212-232 | the read loop returns the device_id of the first identify answer read in time, passing over empty reads, invalid JSON and other objects, and None on a serial or decode error or once the timeout has passed |
| AgentBridge.Bridge.WaitForReconnect | agent/src/agent/bridge.py:179-202 | the result and the actions are those of `ReconnectFrom` |
| AgentBridge.Bridge.FaultPass | agent/src/agent/bridge.py:157-166 | one faulted pass does what the loop step specifies |
| AgentBridge.Bridge.FramePass | agent/src/agent/bridge.py:167-177 | one pass with a frame does what the loop step specifies, and the loop goes on |
| AgentBridge.Bridge.LoopOnce | agent/src/agent/bridge.py:155-177 | one pass or command callback does what the loop step specifies |
| AgentBridge.Bridge.ReadEvents | agent/src/agent/bridge.py:146-177 | the flag, the actions and the exit reason are those of the loop run over the script |
| AgentBridge.Bridge.CleanupBeforeDisconnect | agent/src/agent/bridge.py:342-360 | the flag and writes are those of `CleanupEffect` |
| AgentBridge.Bridge.Shutdown | agent/src/agent/bridge.py:135-139 | cleanup writes, a waited "offline", the MQTT disconnect and the port close, in that order |
| AgentBridge.Bridge.Serve | agent/src/agent/bridge.py:131-139 | "online", the read loop, then the shutdown sequence |
| AgentBridge.Bridge.Session | agent/src/agent/bridge.py:118-139 | MQTT connect with an "offline" will; the port is closed on failure, otherwise the session is served |
| AgentBridge.Bridge.Run | agent/src/agent/bridge.py:108-142 | a failed open does nothing; a failed handshake writes 'I' and closes the port; otherwise the device_id is the handshake's and the session follows |
| AgentBridge.SessionAsWritten | agent/src/agent/bridge.py:117-131 | as written, after a successful connect the log ends with the "online" publish, never waited for; no serial write, no waited publish and no MQTT disconnect ever happens, and the port is closed only when the connect failed |
| AgentBridge.SessionAsWrittenCrashes | agent/src/agent/bridge.py:127-139 | with a successful connect, the as-written and the intended session send the same connect and the same "online" message, but only the intended one waits for it, publishes "offline", disconnects MQTT and ends by closing the port |
| AgentBridge.Bridge.RunAsWritten | agent/src/agent/bridge.py:108-142 | `run` as written crashes exactly when the port opens, the handshake answers and MQTT connects; it then leaves the pause flag alone and its log is the 'I' write followed by `SessionAsWritten` |
| DashboardEnv.ValidatePort | dashboard/src/dashboard/env.py:22-38 | an accepted port lies in 1..65535 and is what `int` reads from the value; every error names the variable |
| DashboardEnv.PortVerdicts | dashboard/src/dashboard/env.py:22-38 | each of the four verdicts holds iff its condition holds |
| DashboardEnv.SameChecksAsBridge | dashboard/src/dashboard/env.py:22-47 | the dashboard accepts exactly the ports and brokers the bridge accepts, with the same values and the same kind of error |
| DashboardEnv.ValidateBroker | dashboard/src/dashboard/env.py:41-47 | accepted iff set and not blank, returned unstripped; otherwise "not set" |
| DashboardEnv.ValidateRootPath | dashboard/src/dashboard/env.py:50-63 | an unset or empty value is the empty prefix; any other value is accepted iff it starts with '/' and does not end with '/', and is returned as is |
| DashboardEnv.RootSlashRefused | dashboard/src/dashboard/env.py:59-61 | a bare "/" is refused for its trailing slash |
| DashboardEnv.RootPathJoins | dashboard/src/dashboard/env.py:50-63 | an accepted prefix followed by a route that starts with '/' starts with '/' and has no doubled slash at the join |
| DashboardEnv.ValidateDataDir | dashboard/src/dashboard/env.py:66-81 | the default is ".", and an empty value also names "."; it is accepted iff it is a directory or can be created; an existing non-directory is refused, and a failed mkdir is refused with its error |
| DashboardEnv.Report | dashboard/src/dashboard/env.py:120 | the report is empty iff there are no errors |
| DashboardEnv.Collected | dashboard/src/dashboard/env.py:87-117 | no error iff all five variables are accepted; otherwise each refused variable's error is present, the count equals the number of refused variables, and the errors name distinct variables in validation order (MQTT_BROKER, MQTT_PORT, APP_PORT, APP_ROOT_PATH, DATA_DIR) |
| DashboardEnv.RankedInOrder | dashboard/src/dashboard/env.py:87-117 | errors appended one variable at a time, in validation order, are pairwise in that order, so no variable appears twice |
| DashboardEnv.CollectedAppended | dashboard/src/dashboard/env.py:87-117 | the collected errors are what appending each refused variable's error in turn builds |
| DashboardEnv.LoadEnv | dashboard/src/dashboard/env.py:84-129 | with any error it exits with status 1 and the report; otherwise it returns the five validated values |
| DashboardLeaderboard.Ranked | dashboard/src/dashboard/leaderboard.py:91-93 | the board after an insertion holds min(n, 5) entries |
| DashboardLeaderboard.Leaderboard.constructor | dashboard/src/dashboard/leaderboard.py:34 | the board starts empty and valid |
| DashboardLeaderboard.Leaderboard.AddEntry | dashboard/src/dashboard/leaderboard.py:84-94 | the board becomes the stable best-first sort of the old board plus the entry, cut to five, and stays sorted with at most five entries |
| DashboardLeaderboard.Leaderboard.GetLeaderboard | dashboard/src/dashboard/leaderboard.py:97-100 | one dictionary per entry, in board order, each with exactly the keys score, device_id and timestamp, holding that entry's score, device_id and timestamp |
| DashboardLeaderboard.AddToBoard | dashboard/src/dashboard/leaderboard.py:84-94 | the new entry lands right after every entry that scores at least as much, so ties keep the older entry ahead; it stays iff fewer than five entries are ahead of it, and otherwise the board is unchanged |
| DashboardLeaderboard.RankedSplice | dashboard/src/dashboard/leaderboard.py:91-92 | before the cut, the sorted list is the board with the entry spliced in at its rank |
| DashboardRegistry.StatusFrom | dashboard/src/dashboard/__main__.py:74-78 | "serial_error" and "offline" are kept; any other status, or none, means online |
| DashboardRegistry.Registry.constructor | dashboard/src/dashboard/state.py:41-58 | no devices are known at start |
| DashboardRegistry.Registry.HandleMessage | dashboard/src/dashboard/__main__.py:40-50 | a topic containing "/state" has the state handler's effect on the registry and leaves the board alone; otherwise one containing "/game_events" has the event handler's effect on the registry and the board; any other topic changes neither |
| DashboardRegistry.Registry.HandleState | dashboard/src/dashboard/__main__.py:53-78 | the registry becomes `OnState` of the old one: without a device_id nothing changes; otherwise only that device changes, being created if unknown, with last-seen set to the message's ts and its status set from the message |
| DashboardRegistry.Registry.HandleGameEvent | dashboard/src/dashboard/__main__.py:81-126 | the registry becomes `OnEvent` of the old one and the board `BoardOnEvent`: without a device_id nothing changes; otherwise only that device changes, by `AfterEvent`, and the board gains the session's ranked entry iff a session end closes an open session |
| DashboardRegistry.Registry.CheckDeviceTimeouts | dashboard/src/dashboard/__main__.py:137-141 | the set of devices is kept; each device is the watchdog's verdict on it |
| DashboardRegistry.EventKeepsWellFormed | dashboard/src/dashboard/__main__.py:102-126 | every event keeps "playing iff a session is open" and at most five past sessions, and stamps last-seen |
| DashboardRegistry.SessionArchived | dashboard/src/dashboard/__main__.py:109-122 | a session end makes the device idle and puts the closed session, with the end event, at the head of the history, followed by at most four older sessions |
| DashboardRegistry.MidSessionEvent | dashboard/src/dashboard/__main__.py:124-126 | any other event is appended to the open session in arrival order, and is dropped when no session is open |
| DashboardRegistry.ExpireSpec | dashboard/src/dashboard/__main__.py:139-141 | after the watchdog, no device is online that was silent for more than 30 s; it only turns online devices offline, and a second pass changes nothing |
| DashboardApp.LevelCommand | dashboard/src/dashboard/app.py:89-94 | a level outside 1..8 is refused with 400 and its detail text; otherwise the level's digit is published |
| DashboardApp.Encode | dashboard/src/dashboard/mqtt.py:38-44 | an ASCII payload is sent as one byte per character, with the same code |
| DashboardApp.CommandsReachBoard | dashboard/src/dashboard/app.py:71-94 | every command the endpoints publish is a single byte in the bridge's command table, and the bridge writes exactly that byte |
| DashboardApp.LevelByte | dashboard/src/dashboard/app.py:94 | levels 1..8 are sent as the bytes 0x31..0x38 |
| DashboardApp.CommandTopicMatches | dashboard/src/dashboard/mqtt.py:38 | the dashboard publishes to the topic the bridge subscribes to for its own device |
| DashboardApp.InjectBaseUnchanged | dashboard/src/dashboard/app.py:48 | without a root path, or without a `<head>`, the page is served as it is |
| DashboardApp.InjectBaseSplice | dashboard/src/dashboard/app.py:36-48 | otherwise the base tag goes right after the first `<head>`, and cutting it out gives back the page |
| DashboardApp.SpliceAfter | dashboard/src/dashboard/app.py:48 | text inserted after a marker can be cut out again |
| DashboardApp.BaseHrefSingleSlash | dashboard/src/dashboard/app.py:36 | with an accepted root path the base URL ends in exactly one '/' |
| CloudStorage.FirstMatch | cloud/storage.py:54-58 | the index found is the first stored session with the same (session_id, device_id); None means that no stored session has that key |
| CloudStorage.Limited | cloud/storage.py:99 | a slice `[:limit]` is a prefix of the list and, for a non-negative limit, holds at most `limit` entries |
| CloudStorage.DataStore.constructor | cloud/storage.py:21-26 | a store without a file starts with no sessions |
| CloudStorage.DataStore.AddSession | cloud/storage.py:51-63 | the stored list becomes the upsert of the session: the first same-key session is replaced in place, otherwise the session is appended |
| CloudStorage.DataStore.Leaderboard | cloud/storage.py:65-99 | the result is the per-player entries, stable-sorted by best score and cut to the limit |
| CloudStorage.DataStore.FoldSession | cloud/storage.py:70-84 | one session adds one to its player's count and its score to the total, the best is at least both the old best and this score, and the figures are `Fold` of the old ones |
| CloudStorage.UpsertSpec | cloud/storage.py:51-63 | an upsert stores the session; the list grows iff no stored session had its key; sessions with other keys are kept, and nothing else is added |
| CloudStorage.UpsertUnique | cloud/storage.py:51-63 | upserting keeps the keys unique |
| CloudStorage.OrderMatchesAggregate | cloud/storage.py:67-73 | the players in `by_player`'s order are exactly its keys, each listed once |
| CloudStorage.AggregateStep | cloud/storage.py:68-84 | folding in one more session updates only that session's player, who joins the order at the end when new |
| CloudStorage.AggregateCount | cloud/storage.py:69-75 | exactly the players with a session have figures, and `count` is their number of sessions (a missing player counted as "anon") |
| CloudStorage.AggregateBest | cloud/storage.py:76-80 | a player's `best` is the highest total score among that player's sessions, and some session attains it |
| CloudStorage.Entries | cloud/storage.py:86-97 | one entry for each player in `by_player` |
| CloudStorage.EntriesSpec | cloud/storage.py:86-97 | before sorting there is exactly one entry per player, with the player's session count and best score |
| CloudStorage.LeaderboardSpec | cloud/storage.py:65-99 | the leaderboard is a permutation of the entries, best first, of which the first `limit` are returned, each a correct player entry |
| CloudStorage.Summarize | cloud/storage.py:101-118 | an empty store reports zeros and no best score, and only an empty one does |
| CloudStorage.StatsPlayers | cloud/storage.py:112-115 | `stats` counts as many players as the leaderboard has entries before the cut |
| CloudStorage.StatsBest | cloud/storage.py:110-116 | the best score `stats` reports is that of the top leaderboard entry |
| CloudStorage.TopAtMostMax | cloud/storage.py:98-110 | no player's best exceeds the highest session score |
| CloudStorage.MaxAtMostTop | cloud/storage.py:98-110 | the top entry is at least as good as the highest session score |
| CloudStorage.MaxScoreSpec | cloud/storage.py:110 | the `max` of the scores bounds every session and is attained by one |
| CloudConfig.Overlay | cloud/config.py:74 | `dict.update` on a copy: the keys are the union, and the second map's values win |
| CloudConfig.ConfigManager.constructor | cloud/config.py:36-42 | without a file: the default configuration, no overrides, the lock free |
| CloudConfig.ConfigManager.Get | cloud/config.py:70-75 | while the lock is held there is no answer; otherwise the id (or "unknown") with the defaults' keys plus the override's keys |
| CloudConfig.ConfigManager.UpdateAsWritten | cloud/config.py:77-86 | the settings are merged, then the call blocks for good on the lock it already holds |
| CloudConfig.ConfigManager.Update | cloud/config.py:77-86 | the settings are merged, the lock is released, and the result is what `get` returns for the id on the new state |
| CloudConfig.PlainDefaults | cloud/config.py:72-73 | without an id, or without an override, a device gets the defaults |
| CloudConfig.OverrideWins | cloud/config.py:72-74 | with an override, each key comes from the override where it has one and from the defaults elsewhere |
| CloudConfig.DeviceUpdate | cloud/config.py:79-82 | a device update leaves the defaults alone and changes that device's configuration by exactly the new settings |
| CloudConfig.OverlayAssoc | cloud/config.py:81 | two overlays in a row are one overlay of the combined settings |
| CloudConfig.OtherDevicesKept | cloud/config.py:79-82 | a device update leaves every other device's configuration unchanged |
| CloudConfig.DefaultsUpdate | cloud/config.py:83-84 | an update without an id changes only the defaults; each key then comes from the override first, then from the update, then from the old defaults |
| CloudWorker.ExtractDeviceId | cloud/mqtt_worker.py:86-90 | an extracted device id holds no '/' |
| CloudWorker.ExtractRoundTrip | cloud/mqtt_worker.py:86-90 | a topic built under "whac" gives back the id it was built with |
| CloudWorker.SplitHead | cloud/mqtt_worker.py:87 | the first part of a split is what comes before the first separator |
| CloudWorker.ExtractNeedsPrefix | cloud/mqtt_worker.py:88-89 | only topics starting with "whac/" yield a device id |
| CloudWorker.WithDeviceId | cloud/mqtt_worker.py:96 | `setdefault`: the topic's id is added only where the payload has none, and every other field is kept |
| CloudWorker.HandleEvent | cloud/mqtt_worker.py:92-105 | handling an event never publishes |
| CloudWorker.HandleConfigRequest | cloud/mqtt_worker.py:107-112 | the configuration is published retained at qos 1 |
| CloudWorker.OnMessage | cloud/mqtt_worker.py:71-84 | a topic without an id is ignored; only "/events" topics store, and only "/config_request" topics publish |
| CloudWorker.EventTopicStores | cloud/mqtt_worker.py:81-102 | an object on a device's events topic is stored iff validation accepts it with the topic's id filled in, and then as validated |
| CloudWorker.BadPayloadIgnored | cloud/mqtt_worker.py:93-100 | a payload that is not a JSON object stores nothing |
| CloudWorker.ConfigRequestAnswered | cloud/mqtt_worker.py:83-112 | a configuration request is answered on the device's command topic, retained at qos 1, with what `get` returns for the device |
| CloudWorker.RequestTopicRouted | cloud/mqtt_worker.py:76-84 | a device's config_request topic yields the device's id and is routed as a request, not as an event |
| CloudWorker.BridgeEventsNotStored | cloud/mqtt_worker.py:81 | the bridge's `.../game_events` topic does not end in "/events" and so is never stored |
| CloudEnv.GetEnvVars | cloud/src/cloud/env.py:20-39 | a success returns the unstripped broker and a port that `int` reads and that lies in 1..65535 |
| CloudEnv.SetupErrorOrder | cloud/src/cloud/env.py:29-37 | the broker is checked before the port, and presence before validity; each error holds iff its condition does |
| CloudEnv.AgreesWithBridge | cloud/src/cloud/env.py:20-39 | the cloud accepts exactly the environments the bridge accepts, and reads the same broker and port |
| Strings.StripLeft | agent/src/agent/misc/env.py:22 | the result is a suffix of the string, cut after leading whitespace only, and starts with a non-space |
| Strings.StripRight | agent/src/agent/misc/env.py:22 | the result is a prefix of the string, cut before trailing whitespace only, and ends with a non-space |
| Strings.StripSpec | agent/src/agent/misc/env.py:22 | `s.strip()` is empty iff the string is blank; otherwise it starts and ends with a non-space |
| Strings.ParseDecimal | agent/src/agent/misc/env.py:27 | digits-only parsing succeeds iff the text is a non-empty run of ASCII digits |
| Strings.Decimal | emb/src/agent.c:24-43 | the decimal rendering is a non-empty run of digits whose value is the number |
| Strings.ParseIntBlank | agent/src/agent/misc/env.py:22-27 | a blank string is not an integer |
| Strings.ParseIntRoundTrip | agent/src/agent/misc/env.py:27 | `int(str(i)) == i` |
| Strings.PaddedParseInt | agent/src/agent/misc/env.py:22-27 | `int` ignores surrounding whitespace, and padded text is not blank |
| Strings.PaddedParse | agent/src/agent/bridge.py:294 | stripping removes exactly the padding around the text |
| Strings.FindFrom | dashboard/src/dashboard/app.py:48 | the first occurrence of the pattern at or after the start index, or none |
| Strings.Find | dashboard/src/dashboard/app.py:48 | `find` succeeds iff the pattern occurs, and then at its first occurrence |
| Strings.Split | cloud/mqtt_worker.py:87 | `split` gives at least one part, and no part holds the separator |
| Strings.IndexOf | cloud/mqtt_worker.py:87 | the first position of the character |
| Strings.SplitJoin | cloud/mqtt_worker.py:87 | splitting undoes joining when no part holds the separator |
| Json.Str | agent/src/agent/mqtt.py:152 | a string id renders as itself, and a non-negative integer id as digits that parse back to it |
| StableSort.Insert | dashboard/src/dashboard/leaderboard.py:92 | an insertion adds one element |
| StableSort.SortDesc | dashboard/src/dashboard/leaderboard.py:92 | the sort keeps the length |
| StableSort.InsertPerm | dashboard/src/dashboard/leaderboard.py:92 | an insertion adds exactly the element |
| StableSort.SortDescPerm | dashboard/src/dashboard/leaderboard.py:92 | `sort(key=..., reverse=True)` returns a permutation of its input |
| StableSort.InsertSorted | dashboard/src/dashboard/leaderboard.py:92 | an insertion into a sorted list keeps it sorted |
| StableSort.SortDescSorted | dashboard/src/dashboard/leaderboard.py:92 | the result is in non-increasing key order |
| StableSort.InsertPosition | dashboard/src/dashboard/leaderboard.py:92 | in a sorted list, the element lands right after every element whose key is at least its own |
| StableSort.InsertWithKey | cloud/storage.py:98 | an insertion keeps the order of the elements that share a key |
| StableSort.SortDescStable | cloud/storage.py:98 | the sort is stable: elements with equal keys keep their order |
| StableSort.CountAtLeastSort | cloud/storage.py:98 | how many elements reach a key does not depend on their order |
| StableSort.AppendedPosition | dashboard/src/dashboard/leaderboard.py:91-92 | sorting a list with one element appended puts it right after every earlier element whose key is at least its own |
| StableSort.SortDescSortedId | dashboard/src/dashboard/leaderboard.py:92 | sorting a list that is already sorted leaves it unchanged |
| EmbBits.SetPinBits | emb/src/io_expander.c:96 | `x \| (1 << pin)` sets the pin's bit and keeps every other bit |
| EmbBits.ClearPinBits | emb/src/io_expander.c:105 | `x & ~(1 << pin)` clears the pin's bit and keeps every other bit |
| EmbBits.SetOnlyIndex | emb/src/io_expander.c:91-98 | through a pin table, setting one index's pin sets that index and no other |
| EmbBits.ClearOnlyIndex | emb/src/io_expander.c:100-107 | through a pin table, clearing one index's pin clears that index and no other |
| EmbBits.SetClearLaws | emb/src/io_expander.c:91-107 | setting twice is setting once, clearing likewise; clearing a bit just set restores a byte where it was clear |
| EmbBits.Byte.constructor | emb/src/io_expander.c:91 | a byte cell holding the given value, standing for the caller's `uint8_t` that the helpers update by address |
| EmbIoExpander.TablesArePermutations | emb/src/io_expander.c:11-31 | both tables send the eight indices to eight distinct pins |
| EmbIoExpander.IsBtnPressed | emb/src/io_expander.c:79-89 | false for an index past the table; otherwise pressed iff the button's pin reads 0 |
| EmbIoExpander.NothingPressedAtRest | emb/include/io_expander.h:24 | the idle byte 0xFF reads no button as pressed |
| EmbIoExpander.OnlyThatButton | emb/src/io_expander.c:79-89 | a byte with one button's pin low reads that button, and only that one, as pressed |
| EmbIoExpander.LedOn | emb/src/io_expander.c:91-98 | the caller's byte becomes the pattern with the LED's pin set; past the table it is unchanged |
| EmbIoExpander.LedOff | emb/src/io_expander.c:100-107 | the caller's byte becomes the pattern with the LED's pin cleared; past the table it is unchanged |
| EmbIoExpander.AllLedOff | emb/src/io_expander.c:109 | the byte becomes 0x00, with no LED lit |
| EmbIoExpander.LedOnOnlyItself | emb/src/io_expander.c:91-98 | `led_on` lights the LED and leaves every other LED as it was |
| EmbIoExpander.LedOffOnlyItself | emb/src/io_expander.c:100-107 | `led_off` darkens the LED and leaves every other LED as it was |
| EmbIoExpander.LedSwitchLaws | emb/src/io_expander.c:91-107 | on and off are idempotent; off after on is off alone, so it restores a pattern where the LED was off |
| EmbLed.TableIsPermutation | emb/src/led.c:6-15 | the LED table is a permutation of the pins and equals the I/O expander driver's table |
| EmbLed.LedOn | emb/src/led.c:17-24 | the same update as the I/O expander driver's `led_on` |
| EmbLed.LedOff | emb/src/led.c:26-33 | the same update as the I/O expander driver's `led_off` |
| EmbLed.AllLedOff | emb/src/led.c:35 | the byte becomes 0x00 |
| EmbBtn.TableIsPermutation | emb/src/btn.c:6-15 | the button table is a permutation of the pins and equals the I/O expander driver's table |
| EmbBtn.IsBtnPressed | emb/src/btn.c:17-28 | the same answer as the I/O expander driver's `is_btn_pressed` |
| EmbBtn.OneBitDecides | emb/src/btn.c:17-28 | the answer depends only on the button's own pin |
| EmbBtnsHeader.IsBtnPressed | emb/include/btns.h:23-29 | on a valid button, the same answer as the checked helper |
| EmbBtnsHeader.OtherBitsIgnored | emb/include/btns.h:23-29 | changing any other bit of the state leaves the answer unchanged |
| EmbBtnsHeader.IdleReleased | emb/include/btns.h:23-29 | the idle state 0xFF reads every button as released |
| EmbLedsHeader.LedOn | emb/include/leds.h:19-23 | the LED's pin from the table is set in the caller's byte |
| EmbLedsHeader.LedOff | emb/include/leds.h:32-36 | the LED's pin from the table is cleared in the caller's byte |
| EmbLedsHeader.AgreesWithChecked | emb/include/leds.h:19-36 | on a valid LED the unchecked inline helpers update the byte as the checked ones do, so off after on leaves the LED off and the others as they were |
| EmbUtils.Word32.constructor | emb/src/utils.c:5 | a 32-bit cell holding the given seed, standing for `*state` |
| EmbUtils.RoundTrip | emb/src/utils.c:5-12 | the xorshift step is a bijection: running it backwards gives the state back |
| EmbUtils.ZeroOnlyFromZero | emb/src/utils.c:5-12 | zero is a fixed point, and the only state that steps to zero |
| EmbUtils.ZeroStaysZero | emb/src/utils.c:5-12 | a zero seed stays zero forever, and a nonzero seed never reaches zero |
| EmbUtils.NextRand | emb/src/utils.c:5-12 | the state is updated by the three 32-bit xor-shifts in order, and the new state is returned |
| EmbPause.Toggle | emb/src/pause.c:33-39 | a wake-up flips the pause flag and leaves the game task suspended exactly while paused |
| EmbPause.ToggleTwice | emb/src/pause.c:31-40 | two wake-ups restore both the flag and the game task's state |
| EmbPause.ToggleParity | emb/src/pause.c:31-40 | after n wake-ups the flag has flipped iff n is odd, and the game task still matches it |
| EmbPause.NotifyCount | emb/src/pause.c:18-25 | the handler notifies at most once per character, and not at all iff no 'P' was received |
| EmbPause.BurstsWithP | emb/src/pause.c:13-41 | at most one wake-up per burst of received characters |
| EmbPause.Pause.constructor | emb/src/pause.c:9-11 | not paused, the game running, no notification pending |
| EmbPause.Pause.UartHandler | emb/src/pause.c:13-26 | each 'P' in the FIFO makes one notify call; a notification is pending afterwards iff one was before or a 'P' came |
| EmbPause.Pause.PauseTaskStep | emb/src/pause.c:28-41 | the task wakes iff a notification was pending and consumes it; a wake-up toggles the state, otherwise nothing changes |
| EmbPause.Pause.Replay | emb/src/pause.c:13-41 | after bursts each handled by the interrupt and then by the pause task, the game is paused iff an odd number of bursts held a 'P', however many 'P's each held |
| EmbUartCmd.Send | emb/src/uart_cmd.c:85 | `xQueueSendFromISR` appends when one of the 8 slots is free, and otherwise drops the command |
| EmbUartCmd.CommandOf | emb/src/uart_cmd.c:83-94 | a command is queued iff the character is R, S or 1..8; R resets, S starts, and a digit sets its own level 1..8 |
| EmbUartCmd.Commands | emb/src/uart_cmd.c:57-98 | at most one command per character |
| EmbUartCmd.DispatchEffect | emb/src/uart_cmd.c:58-97 | for one character: every character but 'D' refreshes the tick; 'P' notifies once; 'D' clears the connection flag; 'I' sets the identify flag; the queue gets the command when there is room; nothing else changes |
| EmbUartCmd.UnlistedOnlyTicks | emb/src/uart_cmd.c:58-97 | any other character only refreshes the tick |
| EmbUartCmd.FilledSnoc | emb/src/uart_cmd.c:85-94 | offering one more command is one more queue send |
| EmbUartCmd.HandleQueue | emb/src/uart_cmd.c:48-108 | after the whole FIFO, the queue holds the FIFO's commands in arrival order, as many as fit |
| EmbUartCmd.HandleTick | emb/src/uart_cmd.c:60-63 | the tick is refreshed iff some character other than 'D' came |
| EmbUartCmd.HandleFlags | emb/src/uart_cmd.c:57-98 | the agent counts as disconnected after any 'D', identification is requested after any 'I', and the pause task is notified once per 'P' |
| EmbUartCmd.AllQueuedWhenRoom | emb/src/uart_cmd.c:57-98 | with room for every command, all of them are queued in order |
| EmbUartCmd.UartCmd.UartHandler | emb/src/uart_cmd.c:48-108 | the globals after the handler are the fold of the dispatch over the FIFO |
| EmbUartCmd.UartCmd.PauseTaskStep | emb/src/uart_cmd.c:124-160 | the task wakes iff a notification was pending and consumes it; a wake-up toggles pause and the game task |
| EmbAgent.OutcomeIndex | emb/src/agent.c:14 | every outcome indexes the three-name table |
| EmbAgent.OutcomeNames | emb/src/agent.c:14 | each outcome prints as its own name, and different outcomes print differently |
| EmbAgent.EventType | emb/src/agent.c:22-50 | the event type names hold no quote, newline or colon |
| EmbAgent.DecimalPlain | emb/src/agent.c:24-48 | `%u` and `%lu` print digits only: no colon, no newline |
| EmbAgent.FieldNewline | emb/src/agent.c:24-48 | a `,"key":value` member holds a newline only where its key or value does |
| EmbAgent.FieldsNoNewline | emb/src/agent.c:24-48 | no member of any event prints a newline |
| EmbAgent.PopNoNewline | emb/src/agent.c:27-39 | the five members of a pop result print no newline |
| EmbAgent.LineShape | emb/src/agent.c:21-52 | every line opens with `{"event_type":"` and its type, closes the object, and ends in its only newline |
| EmbAgent.ObjectLine | emb/src/agent.c:21-52 | a newline-free head and members, closed and terminated, have that shape |
| EmbAgent.Until | emb/src/agent.c:60 | the text before the first stop character is a prefix free of it, followed by the stop when shorter |
| EmbAgent.UntilStop | emb/src/agent.c:60 | stop-free text followed by the stop is read back whole |
| EmbAgent.TypeReadsBack | emb/src/agent.c:21-52 | a reader that takes the text after `{"event_type":"` up to the next quote gets the type back, so different kinds of event never print the same line |
| EmbAgent.AfterLastColon | emb/src/agent.c:21-52 | the text after the last colon is a colon-free suffix |
| EmbAgent.AfterColon | emb/src/agent.c:21-52 | a colon-free value after a colon is what follows the last colon |
| EmbAgent.EndsWithField | emb/src/agent.c:21-52 | a line whose last member has a colon-free value reads that value back |
| EmbAgent.LastFieldReadsBack | emb/src/agent.c:21-52 | the last member of every line reads back as sent: the tick count of session_start, the level of pop_result and level_complete, and whether session_end was won |
| EmbAgent.LineSeq | emb/src/agent.c:91-92 | one line per event drained |
| EmbAgent.LineSeqAt | emb/src/agent.c:91-92 | the n-th line printed is the n-th event's |
| EmbAgent.OneNewline | emb/src/agent.c:21-52 | each line holds exactly one newline |
| EmbAgent.WireCount | emb/src/agent.c:91-92 | lines of one newline each make a text with as many newlines as lines |
| EmbAgent.LinesCount | emb/src/agent.c:89-92 | n events put exactly n newlines on the wire, so a line reader sees one line per event |
| EmbAgent.ProcessRxLine | emb/src/agent.c:59-64 | at most one pause command is queued, and one is iff the line contains `"c":"pause"` and the 8-slot queue has room |
| EmbAgent.CStringAtNul | emb/src/agent.c:74-75 | a NUL written after some characters ends the C string there |
| EmbAgent.CStringNoNul | emb/src/agent.c:74-75 | characters without a NUL are the C string |
| EmbAgent.RxChar | emb/src/agent.c:71-81 | the buffer never reaches 128 characters, so the NUL always fits |
| EmbAgent.EmptyTerminator | emb/src/agent.c:72-73 | a terminator on an empty buffer changes nothing |
| EmbAgent.FeedText | emb/src/agent.c:78-80 | characters without a terminator are kept up to the 127th and dropped after it |
| EmbAgent.LineDelivered | emb/src/agent.c:71-81 | a line and its terminator, from an empty buffer, are delivered once, cut to 127 characters and at the first NUL; a pause is offered iff that text holds the pattern; the buffer is emptied |
| EmbAgent.SentAll | emb/src/agent.c:91-92 | one send per event, in queue order |
| EmbAgent.ReadAll | emb/src/agent.c:95-98 | one read per FIFO character, in order |
| EmbAgent.Agent.constructor | emb/src/agent.c:11-12 | a zeroed buffer, nothing buffered, queues empty |
| EmbAgent.Agent.ProcessRxChar | emb/src/agent.c:71-81 | the buffer's state after one character is `RxChar` of the old state |
| EmbAgent.Agent.SendEvent | emb/src/agent.c:21-52 | exactly the event's line is printed |
| EmbAgent.Agent.DrainEvents | emb/src/agent.c:91-92 | the queue is emptied and its events' lines are printed in queue order |
| EmbAgent.Agent.ReadUart | emb/src/agent.c:95-98 | every FIFO character is read in order, and the non-negative ones are fed to the line buffer |
| EmbAgent.Agent.AgentTaskPass | emb/src/agent.c:83-102 | one loop pass sends every queued event in order, then reads and buffers the UART's characters |
| EmbAgent.SendsBeforeReads | emb/src/agent.c:89-98 | in a pass, every line is sent before any character is read |
| EmbGame.Target | emb/src/game.c:123 | the mole drawn is always one of the eight LEDs |
| EmbGame.FirstPressSpec | emb/src/game.c:144-158 | the poll loop stops at the first 5 ms poll that reads a button down, before the duration, with every earlier poll reading all up; when it stops at none, every poll before the duration read all up |
| EmbGame.PopRules | emb/src/game.c:116-163 | the mole is one of the eight; a pop is late exactly when no poll before the level's duration reads a button down, and then the reaction time is the whole duration |
| EmbGame.PressRules | emb/src/game.c:147-154 | a pop that is not late has a reaction time on the poll grid below the duration, at the first poll reading a button down, and is a hit exactly when the mole's own button is down |
| EmbGame.PopWaitDelay | emb/src/game.c:102-105 | one generator step, and a wait of 250 to 1000 ms from it |
| EmbGame.PopDo | emb/src/game.c:116-163 | one generator step, and the outcome, mole and reaction time `PopSpec` gives for the old generator state |
| EmbGame.LevelStep | emb/src/game.c:169-195 | one pop of a level: a hit queues its result and keeps the lives; a miss or late pop costs one life before its result is queued, and the level stops when none are left |
| EmbGame.LevelShape | emb/src/game.c:169-195 | the same pop step, with the pop and the generator state after it given back |
| EmbGame.Game.constructor | emb/src/game.c:9-10 | the statics start at zero with nothing queued |
| EmbGame.Game.GameRunLevel | emb/src/game.c:166-198 | the lives, the generator state and the events sent during a level are those of `LevelFrom` from the old state |
| EmbGame.Game.GameRun | emb/src/game.c:229-250 | the lives, the generator state and the events appended are those of the game from full lives and the fixed seed |
| EmbGame.GameAdvance | emb/src/game.c:234-244 | one pass of the level loop: a level that leaves no lives ends the game with a lost session end; otherwise the game goes on from the next level |
| EmbGame.GameStep | emb/src/game.c:234-244 | a game from a level is that level's events followed by the rest of the game |
| EmbGame.Count | emb/include/rtos_queues.h:36-55 | a count of one kind of event is at most the queue's length |
| EmbGame.CountAppend | emb/include/rtos_queues.h:36-55 | counting events splits over concatenation |
| EmbGame.LevelLives | emb/src/game.c:169-195 | in a level every pop that is not a hit costs exactly one life and no other pop costs any |
| EmbGame.LevelEnd | emb/src/game.c:190-197 | a level ends with its completion exactly when lives remain, otherwise with the pop result that left none; it queues at most one completion and no session event |
| EmbGame.LevelPops | emb/src/game.c:169-197 | every event of a level but the last is a pop result of that level leaving lives, and a completed level played every pop |
| EmbGame.TenPops | emb/src/game.c:12 | every level has ten pops |
| EmbGame.GameShape | emb/src/game.c:234-244 | one level of a game keeps the level rules, and the game then ends lost or goes on |
| EmbGame.LostLives | emb/src/game.c:237-242 | a lost level followed by the lost session end keeps the lives rule |
| EmbGame.NextLives | emb/src/game.c:234-244 | a completed level followed by the rest of the game keeps the lives rule |
| EmbGame.LostEnds | emb/src/game.c:237-242 | a lost level followed by the lost session end ends with exactly one session end |
| EmbGame.NextEnds | emb/src/game.c:234-247 | a completed level followed by the rest of the game ends with exactly one session end |
| EmbGame.LostWon | emb/src/game.c:237-242 | a game lost on a level did not complete every level left |
| EmbGame.NextWon | emb/src/game.c:234-247 | a completed level followed by the rest of the game keeps the winning rule |
| EmbGame.GameLives | emb/src/game.c:234-247 | the rest of a game loses one life per pop that is not a hit and no other |
| EmbGame.GameEnds | emb/src/game.c:234-247 | the rest of a game ends with exactly one session end, last, saying whether lives remain, and with no session start |
| EmbGame.GameWon | emb/src/game.c:234-247 | the rest of a game is won exactly when every level left is completed, and then every pop of them was played |
| EmbGame.StartAndEnd | emb/src/game.c:229-250 | a game starts with its one session start and ends with its one session end, which says whether it was won |
| EmbGame.LivesLost | emb/src/game.c:230 | of the five lives a game starts with, each one lost is a pop missed or late |
| EmbGame.WonGame | emb/src/game.c:229-250 | a game is won exactly when lives remain at its end, exactly when all eight levels were completed, and a won game played all eighty pops |

## Left out

- Serial, MQTT and operating-system I/O: pyserial, paho, `list_ports`, `time.monotonic`, `time.sleep` and `time_now_ms` are not called. Their results are inputs (read results, write successes, return codes, clock readings, timestamps), and what would be sent is an output log or a returned value.
- The Rich status spinner, console colours and logging: they only decorate output. Error texts are kept where the code builds them.
- Concurrency: the paho callback thread, `DEV_LOCK`, `LEADERBOARD_LOCK`, the store's lock, FreeRTOS task scheduling, priorities and ISR timing. Each handler runs to completion. A command callback of the bridge arrives between two iterations of its read loop. The one lock kept is `ConfigManager._lock`, because it decides the finding below.
- FreeRTOS task notifications with `eNoAction` are a pending flag, so several before the task runs count as one. The 8-slot command queue is a sequence, and a send to it when full drops the command.
- Floating point: `calculate_score` (the dashboard's score enters as a parameter), `average_score` in the cloud store (its integer sum is kept), and the simulators' chances and delays.
- `json.loads` and the pydantic validation of cloud sessions and configuration updates are parameters: what a text parses to, or None where it raises.
- Python's `int()` is modelled on ASCII decimal digits with an optional sign and surrounding whitespace. Underscores and non-ASCII digits are not accepted by the model.
- `str.strip()` removes ASCII whitespace only.
- File persistence: the leaderboard's `_save`/`init`, `DataStore.load`/`save`, `ConfigManager.load`/`save` and the cloud's JSONL append. What the filesystem says about DATA_DIR is an input of `DashboardEnv.ValidateDataDir`.
- HTTP and HTML: FastAPI routing, the device and leaderboard listings (plain serialisation), static files, server-sent events and uvicorn startup. cloud/app.py and cloud/src/cloud/app.py are not part of this model.
- Simulators and command-line plumbing: dashboard/mock_game.py, cloud/fake_device.py, both `argparser.py`, both `logging_conf.py` and agent/src/agent/__main__.py are not part of this model.
- cloud/test_mqtt_worker.py calls functions that cloud/mqtt_worker.py does not define, so no property is drawn from it.
- Firmware hardware plumbing:
  - the I2C transfers (`io_expander_init`, `io_expander_read_btns`, `io_expander_write_leds`) are not modelled; button reads are an input;
  - `led_flash`, `lvl_show`, `await_start`, the debounce wait before a pop, `MS_SLEEP` and the event timestamps are not modelled;
  - main.c, telemetry.c, scr_utils.c, `rtos_queues_init`, and the creation of the tasks and interrupt vectors in `pause_init`/`uart_cmd_init` are not part of this model.
- EmbGame.Game: `events` is the log of every `xQueueSend` to the 32-slot event queue (emb/include/rtos_queues.h:10), unbounded. A send to a full queue is dropped by FreeRTOS. The model does not drop it: the agent task drains the queue (emb/src/agent.c:91, `EmbAgent`), and the interleaving of the two tasks that would let 32 events pile up is not modelled.
- AgentBridge.FaultOutcomes: models the intended bridge, which waits for the "online" or "serial_error" publish after a serial fault (bridge.py:162 and 165). As written, those waits raise AttributeError; see "## Findings".
- AgentBridge.Bridge.FaultPass: the waited publish after a serial fault is the intended behaviour; as written it raises (see "## Findings").
- AgentBridge.Bridge.LoopOnce: models the intended read loop; as written, `run` crashes before the loop starts (see "## Findings").
- AgentBridge.Bridge.ReadEvents: models the intended read loop; as written, `run` crashes before the loop starts (see "## Findings").
- AgentBridge.Bridge.Shutdown: models the intended `finally`; as written it is never reached, and its own waited "offline" publish would raise too (see "## Findings").
- AgentBridge.Bridge.Serve: models the intended session after the connect; as written it ends with the "online" publish (`SessionAsWritten`).
- AgentBridge.Bridge.Session: models the intended session; the as-written one is `SessionAsWritten`.
- AgentBridge.Bridge.Run: models the intended `run`; the as-written one is `Bridge.RunAsWritten` (see "## Findings").
- AgentBridge.LoopStep: one timestamp per pass serves both the event publish and the heartbeat. The source reads the clock once per publish, so the two may differ by the time between the calls.
- Json.Str: lists and objects render as empty text, not as Python's `str()` of them. Only string and integer ids are rendered as Python would.
- DashboardRegistry.Ts: a `ts` that is present but not an integer is replaced by the current time. The source stores whatever value it is; for a value that is not a number, the watchdog's `now - device.last_seen` would then raise.
- DashboardEnv.ValidateDataDir: the result is the variable's text, with only the empty text turned into "."; the other normalisation `pathlib.Path` does is not modelled.
- CloudWorker.OnMessage: the payload is decoded as UTF-8 before the topic is looked at, outside any `try`; a payload that is not UTF-8 raises out of the callback. The model receives the payload already parsed, and does not represent that exception.
- EmbGame.PopDo: the 16-bit `elapsed` counter is unbounded in the model. All durations are at most 1500, so it never wraps.
- EmbAgent.Agent.AgentTaskPass: the 10 ms wait of `xQueueReceive` is left out. A pass drains what is queued when it starts.
- EmbUartCmd.UartCmd.UartHandler: reading and clearing the UART interrupt flags is not modelled. The FIFO's contents are an input.
- CloudStorage.DataStore.Leaderboard: `average_score` is not computed (floating point). The per-player sum of scores it divides is kept.
- CloudStorage.Summarize: `stats`' `average_score` is not computed (floating point).
- The firmware's sources are modelled each as written, where they disagree with each other or with their headers:
  - `TF` (agent.c:48) is defined in none of the modelled files; the model prints `true`/`false`;
  - `agent_command_t` and `CMD_PAUSE` (agent.c) are not declared in rtos_queues.h; the model gives the pause command its own datatype, `AgentCommand`;
  - game.c sets `.timestamp`, which `game_event_t` does not declare;
  - pause.c and uart_cmd.c both define `UART_Handler`; each is modelled in its own module.
- Some parts disagree on the messages they exchange. Each part is modelled as it reads and writes:
  - the firmware ends a session with the key `w` (a boolean), while the dashboard reads `win == "true"`;
  - the firmware names `level_complete`, while the dashboard counts `lvl_complete`;
  - the bridge publishes on `.../game_events`, while the cloud worker stores only `.../events` (`CloudWorker.BridgeEventsNotStored`).

## Findings

| source | as written | input that shows it | evidently intended | confidence | as-written member | corrected member |
|---|---|---|---|---|---|---|
| agent/src/agent/bridge.py:131 | `publish_state` (mqtt.py:111-118) returns None, so the `.wait_for_publish()` chained on it raises AttributeError; the same holds at bridge.py:137, 162 and 165 | any run in which the port opens, the device answers the identify request and the MQTT connect succeeds | `publish_state` returns paho's message info, so `run` waits for "online", runs the read loop and, in its `finally`, cleans up, publishes "offline", disconnects MQTT and closes the port | not executed | AgentBridge.Bridge.RunAsWritten | AgentBridge.Bridge.Run |
| cloud/config.py:77-86 | `update` holds the non-reentrant `threading.Lock` (config.py:41) while it calls `get`, which acquires the same lock again, so the call never returns | any `ConfigUpdate`, with or without a `device_id` | apply the update, release the lock, and return `get(update.device_id)` on the new state | not executed | CloudConfig.ConfigManager.UpdateAsWritten | CloudConfig.ConfigManager.Update |
