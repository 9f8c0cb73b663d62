# PC audio mixer: a Dafny model of its control pipeline

The PC audio mixer is a Raspberry Pi Pico with three potentiometers, plus two
Tauri desktop applications: `gui` and `mixer-gui`. The Pico streams knob
readings over USB serial as one JSON line per sample. The desktop side
finds the device, frames and decodes the lines, and turns each sample into
volume changes for the system master volume or for individual applications.

This project models the logic of that pipeline and proves what it promises.

- **Device link** (`Serial`). Listing ports, finding the Pico port, and the
  connection state of `SerialManager`. The reader task accumulates text,
  cuts out each newline-terminated line and decodes it.
- **Wire format** (`Framing`, `JsonLine`, `Text`, `Wire`). The line
  splitter, the strict JSON decoder for one sample, and the end-to-end round
  trip from the firmware's writes to the host's decoded samples.
- **Percentages** (`Types`). `to_percentages` and `round_to_2`, in exact
  integer arithmetic.
- **mixer-gui application** (`MixerApp`, `MixerTypes`, `Audio`). The
  channel-mapping store, the 8-slot mixer view, the per-sample router, and
  `connect_serial`, which starts the router only when the device is connected.
- **gui application** (`GuiApp`). The audio-session reconciler with
  cancellation, the 3-slot mixer view, and the router that drives the master
  volume from pot 1.
- **Configuration** (`ConfigStore`, `MixerConfig`, `GuiConfig`). Defaults,
  loading after saving, `save_channel_mappings` and the `update_settings`
  merge, over an abstract file store.
- **Firmware.**
  - `Firmware`: the telemetry encoder with its 64-byte heapless buffer, the
    upper-casing echo and its write loop, greeting once, the wrapping
    counter, and `pin_toggle`.
  - `Mcp3008`: the MCP3008 driver, with its command byte, the 3-byte
    exchange, chip-select discipline and the 10-bit result.

The model stands in for the outside world as follows.

- **Inputs as parameters:**
  - serial enumeration;
  - open results;
  - what each read returns;
  - SPI replies;
  - ADC results;
  - audio-backend failures;
  - configuration files.
- **Logs instead of effects:**
  - volume calls go to a call log;
  - tauri events go to an emitted list;
  - bytes written to USB are collected in `sent`;
  - SPI and chip-select activity goes to a bus event log.
- **The reader task and the session poller** run as loops over a script of
  events.

## Model

| member | source | states |
|---|---|---|
| Serial.ListPorts | mixer-gui/src-tauri/src/serial.rs:24-44 | An enumeration error becomes the "Failed to list ports: …" error. Otherwise every port is listed, in order, with its name. A USB port is described as product " - " manufacturer, with "Unknown" for a missing part. |
| Serial.FirstCandidate | mixer-gui/src-tauri/src/serial.rs:47-77 | The index of the first matching port in enumeration order. None exactly when no port matches. |
| Serial.FindPicoPort | mixer-gui/src-tauri/src/serial.rs:46-78 | The name of the first port, in enumeration order, matching the USB rule (product has "pico"/"rp2040", manufacturer has "raspberry", case-insensitive) or the name rule. None when none matches or enumeration fails. |
| Serial.NamePrecedence | mixer-gui/src-tauri/src/serial.rs:69-71 | `&&` binds tighter than `\|\|`. "COM3" matches but "COM123" does not. Any name containing "ttyacm" matches whatever its length. |
| Serial.ChosenPort | mixer-gui/src-tauri/src/serial.rs:84-89 | An explicit port name is used as given and skips discovery. Otherwise the discovered port is used. |
| Serial.SerialManager.constructor | mixer-gui/src-tauri/src/serial.rs:17-22 | A new manager has no port and no name. |
| Serial.SerialManager.IsConnected | mixer-gui/src-tauri/src/serial.rs:121-123 | True exactly when a port handle is held. |
| Serial.SerialManager.GetStatus | mixer-gui/src-tauri/src/serial.rs:125-132 | `connected` iff a port is held, `port` is the recorded name, and the error is always None. |
| Serial.SerialManager.Disconnect | mixer-gui/src-tauri/src/serial.rs:116-119 | Afterwards both the handle and the name are None and the manager is not connected. |
| Serial.SerialManager.Connect | mixer-gui/src-tauri/src/serial.rs:80-114 | It always disconnects first. With no port it ends disconnected with "No Pico device found". An open failure gives "Failed to connect: …", disconnected. A successful open gives connected with the port name, and a later status reports the same. The result is never Err. The status is ConnectStatus of the inputs. |
| Serial.ConnectStatus | mixer-gui/src-tauri/src/serial.rs:84-113 | Connected iff a port was chosen and opened, and then it carries the chosen name and no error. Otherwise it has no port and an error. |
| Serial.SerialManager.ReadLoop | mixer-gui/src-tauri/src/serial.rs:134-177 | The samples sent are the decodable lines, in arrival order, of all text read while a port was held, across reconnects. The returned buffer is the unterminated remainder. The port and name end as the disconnects and connects left them, and empty once a poll found no port. |
| Serial.PushChunk | mixer-gui/src-tauri/src/serial.rs:144-170 | Appending one read's text and draining keeps the invariant: the samples sent and the buffer are those of the whole text consumed so far. |
| Serial.DrainLines | mixer-gui/src-tauri/src/serial.rs:158-170 | The drain loop yields the decoded complete lines of the buffer, in order, and leaves the text after the last newline, which holds no newline. |
| Serial.DrainStep | mixer-gui/src-tauri/src/serial.rs:160-168 | Cutting out the first line, up to its newline, and continuing on the rest gives the same lines and remainder as splitting at once. |
| Serial.SplitLinesExtend | mixer-gui/src-tauri/src/serial.rs:147-170 | Framing incrementally equals framing the whole concatenation. New lines come only from the old remainder plus the new text. |
| Serial.DecodeAllSnoc | mixer-gui/src-tauri/src/serial.rs:163-166 | A line that does not parse is skipped, and a line that parses adds exactly its sample at the end. |
| Serial.NoAttachKeepsPort | mixer-gui/src-tauri/src/serial.rs:141-173 | While nobody connects, the reader ends holding its starting port and name iff it started connected and no disconnect occurred, and otherwise holds neither. |
| Serial.ConsumedPoll | mixer-gui/src-tauri/src/serial.rs:144-151 | A poll while connected contributes exactly the read's text and leaves the port and name alone. A failed or 0-byte read contributes nothing. |
| Serial.ConsumedDetach | mixer-gui/src-tauri/src/serial.rs:116-119 | A disconnect by another task empties the slot the reader shares and adds no text. |
| Serial.ConsumedAttach | mixer-gui/src-tauri/src/serial.rs:91-92 | A successful connect by another task fills the shared slot with the new port and name, and the reader goes on with it. |
| Serial.ReaderStops | mixer-gui/src-tauri/src/serial.rs:152-155 | A poll that finds no port ends the reader: nothing more is appended, and a later connect does not revive it. |
| Serial.ReconnectContinues | mixer-gui/src-tauri/src/serial.rs:135-151 | A disconnect then a successful connect with no poll between is invisible to a running reader: it keeps its accumulator and reads the new port. |
| Serial.ReconnectGluesLine | mixer-gui/src-tauri/src/serial.rs:135-170 | The unfinished line read from the old port and its rest read from the new port are framed as one line. |
| Text.Find | mixer-gui/src-tauri/src/serial.rs:160 | The position of the first occurrence, or None iff the character is absent. |
| Text.Decimal | firmware/src/main.rs:211-214 | Rust's `{}` for unsigned integers is all digits, with a leading zero only for 0. |
| Text.DigitsValueOfDecimal | firmware/src/main.rs:211-214 | Reading the decimal notation of n back gives n. |
| Text.DecimalOfDigitsValue | mixer-gui/src-tauri/src/serial.rs:164 | A digit string without a leading zero is the decimal notation of its value. |
| Text.DecimalLength | firmware/src/main.rs:210-215 | A number below 10^k has at most k digits, which bounds each field of the line. |
| Text.DigitRunOfDigits | mixer-gui/src-tauri/src/serial.rs:164 | A number's digits end where the first non-digit begins. |
| Text.CountAppend | mixer-gui/src-tauri/src/serial.rs:158-170 | Counting newlines distributes over concatenation. |
| Framing.SplitLinesJoin | mixer-gui/src-tauri/src/serial.rs:158-170 | The lines, each with its newline restored, followed by the remainder give back the original text. |
| Framing.SplitLinesNoNewline | mixer-gui/src-tauri/src/serial.rs:158-170 | No extracted line contains a newline, and the remaining accumulator contains none either. |
| Framing.LinesPerNewline | mixer-gui/src-tauri/src/serial.rs:158-170 | Each newline in the accumulator yields exactly one line. |
| Framing.SplitLinesStep | mixer-gui/src-tauri/src/serial.rs:160-168 | The first line is the text before the first newline, with the newline excluded. The rest is split after it. |
| Framing.SplitLinesUnique | mixer-gui/src-tauri/src/serial.rs:158-170 | Splitting newline-terminated, newline-free lines plus a newline-free rest gives exactly those lines and that rest. |
| Framing.SplitAfterLines | mixer-gui/src-tauri/src/serial.rs:158-170 | Complete lines at the front are extracted first, unchanged. |
| Framing.JoinAppend | mixer-gui/src-tauri/src/serial.rs:158-170 | The text of two runs of lines is the concatenation of their texts. |
| JsonLine.ParseU16 | mixer-gui/src-tauri/src/serial.rs:164 | A parsed number is the decimal text at the front, and what follows it does not start with a digit. |
| JsonLine.ParseField | mixer-gui/src-tauri/src/serial.rs:164 | A parsed field is its key, then the number's decimal text, then the rest. |
| JsonLine.DecodeSample | mixer-gui/src-tauri/src/serial.rs:164 | A line decodes only if it is exactly the compact rendering of the decoded sample. |
| JsonLine.DecodeRender | mixer-gui/src-tauri/src/serial.rs:164 | Decoding the rendering of any sample gives that sample. |
| JsonLine.DecodeSampleIff | mixer-gui/src-tauri/src/serial.rs:164 | Both directions: a line decodes to d iff it is the rendering of d. |
| JsonLine.DecodeAll | mixer-gui/src-tauri/src/serial.rs:160-168 | Dropping the lines that fail to parse never adds samples. |
| JsonLine.DecodeAllAppend | mixer-gui/src-tauri/src/serial.rs:160-168 | Failures do not stop the loop: decoding two runs of lines is decoding each, in order. |
| JsonLine.DecodeAllEach | mixer-gui/src-tauri/src/serial.rs:160-168 | When every line parses, the samples are exactly the decoded lines, in order. |
| JsonLine.ParseFieldOfKey | mixer-gui/src-tauri/src/serial.rs:164 | A key followed by a rendered number and a non-digit parses back to that number and rest. |
| Firmware.WritePieces | firmware/src/main.rs:210-215 | Formatting into the 64-byte heapless string never exceeds capacity and only appends. |
| Firmware.WritePiecesFits | firmware/src/main.rs:210-215 | When everything fits, the buffer receives all pieces in order, with no truncation. |
| Firmware.EncodeLineExact | firmware/src/main.rs:210-215 | The line is exactly `{"pot1":A,"pot2":B,"pot3":C}` plus a newline, with decimal values. It is at most 41 bytes, so it fits the 64-byte string. |
| Firmware.EncodeLineAscii | firmware/src/main.rs:210-216 | The line is pure ASCII, so its bytes read back as the same text. |
| Firmware.UppercasePrefixFacts | firmware/src/main.rs:186-188 | The length is kept. Only the first `count` bytes are upper-cased, lower-case letters lose 32, and every other byte is unchanged. |
| Firmware.UppercasePrefixIdempotent | firmware/src/main.rs:186-188 | Upper-casing twice is upper-casing once. |
| Firmware.UppercaseInPlace | firmware/src/main.rs:186-188 | The array afterwards is the upper-cased prefix of its old contents. |
| Firmware.UsbSerial.Write | firmware/src/main.rs:190-197 | Takes min(length, the room this call finds) bytes, appends exactly them to what was sent and reports that count. It fails, taking nothing, when that is 0. Each call uses up one entry of the room script. |
| Firmware.WriteLoop | firmware/src/main.rs:190-197 | Never more than the data length is written, and no more room entries are used than given. |
| Firmware.WriteLoopBound | firmware/src/main.rs:190-197 | The loop never writes more than the total room its writes found. |
| Firmware.WriteLoopAll | firmware/src/main.rs:190-197 | When the first k writes all find room and together that room covers the data, all of it is written. The loop can thus send more than any one write takes. |
| Firmware.WriteLoopRefused | firmware/src/main.rs:193-196 | A first write that finds no room ends the loop with nothing written. |
| Firmware.WriteAll | firmware/src/main.rs:190-197 | Sends the data in order, advancing by each returned count, and stops at the first failed write or when all is sent. What is sent is the prefix of WriteLoop's length, and the room script advances as WriteLoop says. |
| Firmware.WriteOnce | firmware/src/main.rs:169-172 | A single write whose count is ignored, as for the greeting and the telemetry line, sends the prefix that the current room allows and uses one room entry. |
| Firmware.Echo | firmware/src/main.rs:176-198 | What reaches the host is the upper-cased received bytes, up to as many as the write loop sent. |
| Firmware.CounterStep | firmware/src/main.rs:219 | The wrapping increment keeps the counter equal to the iteration count mod 2^32. |
| Firmware.MainLoop.constructor | firmware/src/main.rs:165-166 | Starts not greeted, with the counter at 0. |
| Firmware.MainLoop.Iteration | firmware/src/main.rs:167-220 | The output is the greeting, then the echo, then the telemetry line. The greeting is sent exactly once overall. The echo is only for a non-empty read. A sample is sent iff the counter is a multiple of 10000, with failed ADC reads as 0. The counter wraps. The sample, the bytes of each write and the room left for the next pass are exactly LoopPass's. |
| Firmware.MainLoop.Greet | firmware/src/main.rs:169-172 | The greeting is written only on the first pass, and the flag stays set. The bytes sent and the room left are GreetOut's: the prefix the first write's room allows. |
| Firmware.MainLoop.Telemetry | firmware/src/main.rs:203-217 | A line is written only when `counter % 10000 == 0`, and it encodes the readings with failures as 0. The bytes sent and the room left are LineOut's: the prefix of the line one write's room allows. |
| Firmware.SampleAt | firmware/src/main.rs:203-208 | A sample is read iff the counter is a multiple of 10000. |
| Firmware.LoopPassPrefixes | firmware/src/main.rs:167-217 | Each write of a pass sends a prefix of its bytes: of the greeting on the first pass only, of the upper-cased read, and of the telemetry line when one is due. A pass with no telemetry due sends no line. |
| Firmware.PassQuiet | firmware/src/main.rs:167-220 | After the greeting, a pass with nothing read and no telemetry due writes nothing and leaves the room for later writes untouched. |
| Firmware.PassWithRoom | firmware/src/main.rs:167-220 | When each of the next three writes finds room for 64 bytes, a pass sends the whole greeting (first pass only), the whole upper-cased echo and the whole telemetry line. |
| Firmware.MainLoop.Advance | firmware/src/main.rs:219 | The counter steps by one mod 2^32, and nothing else changes. |
| Firmware.PinToggle | firmware/src/main.rs:76-85 | A pin reading back high is driven low. Otherwise, including when the read-back fails, it is driven high. The result is that of the set: it fails exactly when the set fails, and then the level is unchanged. |
| Mcp3008.CommandByte | firmware/src/main_mcp3008.rs:91-93 | The command byte is 0xC0 \| channel, i.e. 0xC0 + channel. |
| Mcp3008.CommandFields | firmware/src/main_mcp3008.rs:91-93 | The byte has the start bit, then single-ended mode, and the channel in the low three bits. |
| Mcp3008.CommandInjective | firmware/src/main_mcp3008.rs:91-93 | Distinct channels give distinct commands. |
| Mcp3008.ResultValue | firmware/src/main_mcp3008.rs:115 | The value is ((rx1 & 3) << 8) \| rx2, always ≤ 1023. |
| Mcp3008.ResultValueOnto | firmware/src/main_mcp3008.rs:115 | Every 10-bit value is produced by some reply. |
| Mcp3008.ResultIgnoresHighBits | firmware/src/main_mcp3008.rs:115 | Only the low two bits of the middle reply byte matter. |
| Mcp3008.TxBytes | firmware/src/main_mcp3008.rs:96 | The bytes sent are [command, 0x00, 0x00]. |
| Mcp3008.FirstFailure | firmware/src/main_mcp3008.rs:102-110 | The index of the first failed transfer, with every earlier one successful. |
| Mcp3008.BadChannelNoActivity | firmware/src/main_mcp3008.rs:86-88 | A channel above 7 is an error with no SPI or chip-select activity. |
| Mcp3008.ChipSelectDiscipline | firmware/src/main_mcp3008.rs:99-112 | For a valid channel, CS goes low first and high last, on every path, with only transfers between. |
| Mcp3008.StopsAtFirstFailure | firmware/src/main_mcp3008.rs:102-109 | A failed byte transfer is an error, and no later byte is transferred. |
| Mcp3008.SuccessValue | firmware/src/main_mcp3008.rs:112-116 | When all three transfers succeed the result is the 10-bit value from the last two replies. |
| Mcp3008.FailureEvents | firmware/src/main_mcp3008.rs:99-108 | The complete bus log of a failed exchange: CS low, the transfers up to the failure, then CS high. |
| Mcp3008.SuccessEvents | firmware/src/main_mcp3008.rs:99-116 | The complete bus log of a successful exchange: CS low, three transfers in order, then CS high. |
| Mcp3008.Adc.constructor | firmware/src/main_mcp3008.rs:74-83 | A new driver keeps the chip-select pin as given and has caused no bus activity. |
| Mcp3008.Adc.ReadChannel | firmware/src/main_mcp3008.rs:85-117 | The result and the bus activity are those of the read specification. CS ends high after any valid-channel read. |
| Mcp3008.Adc.Exchange | firmware/src/main_mcp3008.rs:99-116 | The transfer loop fills the reply buffer in order, stops at the first failure, and raises CS on both paths. |
| Mcp3008.Adc.ReadPot | firmware/src/main_mcp3008.rs:190-195 | One reading, with a failed read as 0. |
| Mcp3008.Adc.ReadPots | firmware/src/main_mcp3008.rs:190-195 | Channels 0 to 5 feed pot1 to pot6 in order, failures read as 0, and the bus log is the six reads in order. |
| Mcp3008.Reading | firmware/src/main_mcp3008.rs:190-195 | At most 1023. It is 0 on a failed read, else the value read. |
| Types.RoundTo2 | gui/src-tauri/src/types.rs:13-16 | Always a multiple of 2, and at most 100 for raw ≤ 4095. |
| Types.RoundTo2OfZero | gui/src-tauri/src/types.rs:13-16 | Raw 0 is 0%. |
| Types.RoundTo2OfFullScale | gui/src-tauri/src/types.rs:14-15 | Raw 4095 is 100%. |
| Types.RoundTo2NotClamped | gui/src-tauri/src/types.rs:14-15 | Values above 4095 are not clamped: 65535 gives 1600. |
| Types.RoundTo2IsNearest | gui/src-tauri/src/types.rs:15 | The result is a multiple of 2 nearest to raw/4095·100. |
| Types.NoTie | gui/src-tauri/src/types.rs:15 | For every raw value, the exact percentage is never exactly halfway between two multiples of 2, so the tie-breaking rule of `round` never applies to it. |
| Types.RoundTo2Monotone | gui/src-tauri/src/types.rs:13-16 | Non-decreasing in raw. |
| Types.Quantize | gui/src-tauri/src/types.rs:15 | Rounding to a multiple of 2 leaves multiples of 2 alone and raises odd values by one. |
| Types.RequantizeIdempotent | gui/src-tauri/src/types.rs:15 | Re-quantising a percentage leaves it unchanged. |
| Types.ToPercentages | gui/src-tauri/src/types.rs:11-23 | Each of the three percentages is even, and at most 100 while its reading is within 4095. Each is the RoundTo2 of its own field (ChannelsIndependent). |
| Types.ChannelsIndependent | gui/src-tauri/src/types.rs:18-22 | Each output depends only on its own pot field. |
| Wire.EncodeLineIsRender | firmware/src/main.rs:210-215 | The firmware's line is the host's compact rendering plus a newline. |
| Wire.RenderNoNewline | firmware/src/main.rs:213 | The rendered line holds no newline, so the host never cuts it early. |
| Wire.LineRoundTrip | firmware/src/main.rs:211-215 | The host cuts the firmware's line into exactly one line, the line without its newline, and that line decodes to (A, B, C). |
| Wire.StreamIsJoin | firmware/src/main.rs:203-216 | A stream of telemetry lines is the join of their renderings, which are newline-free and decode to the samples sent. |
| Wire.StreamRoundTrip | mixer-gui/src-tauri/src/serial.rs:158-170 | Framing a stream of firmware lines gives back every sample, in order, and leaves the accumulator empty. |
| Wire.ChunkedRoundTrip | mixer-gui/src-tauri/src/serial.rs:141-170 | However the stream is split into reads, the reader decodes exactly the samples written, with an empty accumulator. |
| Wire.GreetingLine | firmware/src/main.rs:169-172 | The greeting reaches the host as one line that is not a sample. |
| Wire.GreetingDropped | mixer-gui/src-tauri/src/serial.rs:160-168 | The host drops the greeting and decodes exactly the samples after it. |
| Wire.LineBytesText | firmware/src/main.rs:216 | The bytes written read back, byte by byte, as the line's text. |
| MixerApp.Retain | mixer-gui/src-tauri/src/lib.rs:132 | No kept mapping has the removed channel id, and nothing is added. |
| MixerApp.RetainAppend | mixer-gui/src-tauri/src/lib.rs:132 | Retaining keeps the other mappings in their original relative order. |
| MixerApp.RetainAbsent | mixer-gui/src-tauri/src/lib.rs:149-150 | Clearing an absent id changes nothing. |
| MixerApp.RetainIdempotent | mixer-gui/src-tauri/src/lib.rs:149-150 | Clearing twice is clearing once. |
| MixerApp.FindMapping | mixer-gui/src-tauri/src/lib.rs:60-61 | The first mapping with that channel id, in list order, or None iff there is none. |
| MixerApp.FindAfterRetain | mixer-gui/src-tauri/src/lib.rs:132 | Clearing one channel does not change the lookup of another. |
| MixerApp.FindAppend | mixer-gui/src-tauri/src/lib.rs:60-61 | Mappings of other channels in front do not affect the lookup. |
| MixerApp.FindAppendFound | mixer-gui/src-tauri/src/lib.rs:60-61 | The first match wins over any later one. |
| MixerApp.CountAppend | mixer-gui/src-tauri/src/lib.rs:132-135 | Counting mappings per channel distributes over concatenation. |
| MixerApp.SavedFacts | mixer-gui/src-tauri/src/lib.rs:132-135 | After saving m, exactly one mapping has m's channel id. It equals m, it is last, and lookups of other channels are unchanged. |
| MixerApp.SaveTwice | mixer-gui/src-tauri/src/lib.rs:132-135 | Saving the same channel twice is the same as saving the second mapping only. |
| MixerApp.RetainUnique | mixer-gui/src-tauri/src/lib.rs:132 | Clearing keeps channel ids unique and only keeps mappings from the list. |
| MixerApp.SaveKeepsUnique | mixer-gui/src-tauri/src/lib.rs:132-135 | Saving keeps at most one mapping per channel. |
| MixerApp.SlotView | mixer-gui/src-tauri/src/lib.rs:168-177 | Slot id has value 0 and is physical iff id ≤ 3. Its app and process id come from the first mapping with that id, or are None. |
| MixerApp.SlotAfterSave | mixer-gui/src-tauri/src/lib.rs:132-177 | After saving, the slot shows the saved mapping's process name and id. |
| MixerApp.SlotAfterClear | mixer-gui/src-tauri/src/lib.rs:149-177 | After clearing, the slot shows no app. |
| MixerApp.ChannelCall | mixer-gui/src-tauri/src/lib.rs:60-67 | With a master mapping, set_master_volume(pct). Otherwise, with a process id, set_app_volume(pid, pct). Otherwise no call. Both directions are stated. |
| MixerApp.SampleCallsUnfold | mixer-gui/src-tauri/src/lib.rs:56-68 | One sample's calls are those of channels 1, 2 and 3, in order, at their percentages. |
| MixerApp.NoMappingsNoCalls | mixer-gui/src-tauri/src/lib.rs:60-67 | Without mappings the router makes no calls. |
| MixerApp.SampleCallVolumes | mixer-gui/src-tauri/src/lib.rs:56-68 | For readings ≤ 4095 every volume passed is an even percentage in [0, 100]. |
| MixerApp.RouterExample | mixer-gui/src-tauri/src/lib.rs:56-68 | Master on channel 1, an app on channel 2, an unmapped channel 3: exactly a master call at pot 1's percentage and an app call at pot 2's. |
| MixerApp.RouterCallsAppend | mixer-gui/src-tauri/src/lib.rs:51-69 | The calls for a run of samples are the calls for each sample, in order. |
| MixerApp.RouteSample | mixer-gui/src-tauri/src/lib.rs:56-68 | The backend receives exactly the sample's calls. Failed calls do not stop the remaining channels. |
| MixerApp.MappingStore.constructor | mixer-gui/src-tauri/src/lib.rs:190 | Starts with the mappings loaded from the configuration, or none if loading fails. |
| MixerApp.MappingStore.SaveChannelMapping | mixer-gui/src-tauri/src/lib.rs:124-141 | The in-memory mappings become retain-then-push. Persisting follows save_channel_mappings. A failed save keeps the in-memory change and returns the error. |
| MixerApp.MappingStore.ClearChannelMapping | mixer-gui/src-tauri/src/lib.rs:144-156 | The in-memory mappings lose every mapping of the id, and the rest are persisted as save does. |
| MixerApp.MappingStore.GetChannelMappings | mixer-gui/src-tauri/src/lib.rs:159-161 | Returns exactly the current mappings. |
| MixerApp.MappingStore.GetMixerChannels | mixer-gui/src-tauri/src/lib.rs:164-180 | Exactly eight channels, ids 1 to 8 in order, each the slot view of the current mappings. |
| MixerApp.RunRouter | mixer-gui/src-tauri/src/lib.rs:50-70 | Every sample is emitted to the front end. The backend receives, in order, each sample's calls under the mappings copied from the shared list when that sample was routed, whatever the backend answered. |
| MixerApp.RoutedCallsStep | mixer-gui/src-tauri/src/lib.rs:51-69 | Routing one more sample appends exactly its calls under its own copy of the mappings. |
| MixerApp.RoutedCallsUnedited | mixer-gui/src-tauri/src/lib.rs:51-69 | While no save or clear intervenes, routing with per-sample copies is routing every sample with the one list. |
| MixerApp.SaveRedirects | mixer-gui/src-tauri/src/lib.rs:131-135 | Once a mapping is saved, samples routed later send that channel's percentage to the master, to the saved process, or nowhere, as the new mapping says, whatever was mapped before. |
| MixerApp.ClearSilences | mixer-gui/src-tauri/src/lib.rs:150 | Once a channel is cleared, samples routed later move no volume for it. |
| MixerApp.ConnectSerial | mixer-gui/src-tauri/src/lib.rs:25-74 | The status returned is `connect`'s for the inputs (ConnectStatus). The router runs only when it is connected. When not connected nothing is emitted, no volume is set and no port is held. When connected, the samples decoded from the reader's text are emitted and routed under their per-sample mappings, and the port and name end as the reader's script leaves them. |
| GuiApp.SessionListsEqualIff | gui/src-tauri/src/lib.rs:236-240 | The written-out comparison is ordered, element-wise Vec equality. |
| GuiApp.ReorderIsChange | gui/src-tauri/src/lib.rs:236-240 | Reordering distinct sessions counts as a change. The comparison is not order-independent. |
| GuiApp.Reconcile | gui/src-tauri/src/lib.rs:231-257 | A failed poll keeps the snapshot and emits nothing. An equal list emits nothing. A different list replaces the snapshot and is emitted once. |
| GuiApp.ReconcileTracksPoll | gui/src-tauri/src/lib.rs:231-252 | After a successful poll the snapshot is the polled list, and an emitted event carries the new snapshot. |
| GuiApp.CancelEndsRun | gui/src-tauri/src/lib.rs:223-228 | Events after cancellation cause no polls, no changes and no emits. |
| GuiApp.SamePollTwice | gui/src-tauri/src/lib.rs:236-247 | Two ticks returning the same list emit at most once. |
| GuiApp.FirstNonEmptyPollAnnounced | gui/src-tauri/src/lib.rs:236-252 | From the empty initial snapshot (line 146), the first non-empty poll replaces it and is emitted. |
| GuiApp.SessionReconciler.constructor | gui/src-tauri/src/lib.rs:146 | Starts with an empty snapshot and no emitted events. |
| GuiApp.SessionReconciler.Tick | gui/src-tauri/src/lib.rs:231-257 | The snapshot and the emitted log advance exactly as one reconciliation step. |
| GuiApp.SessionReconciler.Run | gui/src-tauri/src/lib.rs:221-262 | The state and emits are those of the run specification, and polling stops at the first cancellation. |
| GuiApp.RunStep | gui/src-tauri/src/lib.rs:221-262 | Cancellation stops the run. An elapsed tick reconciles, then the run continues. |
| GuiApp.GetMixerChannels | gui/src-tauri/src/lib.rs:120-133 | Exactly channels 1, 2 and 3, all physical, value 0. |
| GuiApp.MasterCalls | gui/src-tauri/src/lib.rs:62-64 | One master-volume call per sample, at pot 1's percentage. |
| GuiApp.MasterCallsIgnoreOtherKnobs | gui/src-tauri/src/lib.rs:62-64 | Pots 2 and 3 never affect the calls. |
| GuiApp.RouteMasterOnly | gui/src-tauri/src/lib.rs:55-66 | Every sample is emitted, and the backend gets the master call of each sample, in order, with errors ignored. |
| GuiApp.ConnectSerial | gui/src-tauri/src/lib.rs:31-70 | The status returned is `connect`'s for the inputs (ConnectStatus). The router runs only when it is connected. Otherwise nothing is emitted, no volume is set and no port is held. When connected, the decoded samples drive the master volume, and the port and name end as the reader's script leaves them. |
| Audio.AudioBackend.SetAppVolume | mixer-gui/src-tauri/src/audio.rs:6 | The call is logged and fails exactly when the backend refuses it. |
| Audio.AudioBackend.SetMasterVolume | mixer-gui/src-tauri/src/audio.rs:7 | The call is logged and fails exactly when the backend refuses it. |
| ConfigStore.Load | mixer-gui/src-tauri/src/config.rs:19-37 | No directory is an error. No file gives the defaults. A readable file gives its contents, and an unreadable one is an error. |
| ConfigStore.LoadAfterStore | mixer-gui/src-tauri/src/config.rs:33-45 | Loading after a store returns what was stored. |
| ConfigStore.Save | mixer-gui/src-tauri/src/config.rs:39-45 | A write succeeds iff the directory and file are writable. Then it replaces the file, and otherwise nothing changes. |
| MixerConfig.LoadConfig | mixer-gui/src-tauri/src/config.rs:19-37 | With no file: empty mappings, start_with_windows false, minimize_to_tray true, auto_connect true, theme "dark". It is an error iff the directory or the file fails. |
| MixerConfig.LoadChannelMappings | mixer-gui/src-tauri/src/config.rs:47-50 | The mappings of the loaded configuration, failing when it fails. |
| MixerConfig.SaveConfig | mixer-gui/src-tauri/src/config.rs:39-45 | Writes the configuration iff the store is ready and writable, and otherwise changes nothing. |
| MixerConfig.LoadAfterSave | mixer-gui/src-tauri/src/config.rs:33-45 | Loading after saving returns the saved configuration. |
| MixerConfig.WithMappings | mixer-gui/src-tauri/src/config.rs:56-58 | Only channel_mappings is replaced. The other four settings are kept. |
| MixerConfig.SaveChannelMappings | mixer-gui/src-tauri/src/config.rs:52-61 | Load, replace the mappings, save. A load error aborts before anything is written. |
| MixerConfig.ApplySettings | mixer-gui/src-tauri/src/config.rs:72-86 | Each given setting overwrites its field, each absent one leaves it, and channel_mappings is never touched. |
| MixerConfig.ApplyNothing | mixer-gui/src-tauri/src/config.rs:63-88 | An all-None update yields the identical configuration. |
| MixerConfig.ApplyIdempotent | mixer-gui/src-tauri/src/config.rs:72-86 | Applying the same update twice is applying it once. |
| MixerConfig.MappingsAndSettingsCommute | mixer-gui/src-tauri/src/config.rs:52-91 | Replacing mappings and updating settings touch disjoint fields, so their order does not matter. |
| MixerConfig.UpdateSettings | mixer-gui/src-tauri/src/config.rs:63-91 | Load, merge, save. A load or path error aborts before anything is written. |
| MixerConfig.MergeSettings | mixer-gui/src-tauri/src/config.rs:72-86 | The field-by-field overrides give exactly the merged configuration. |
| GuiConfig.LoadConfig | gui/src-tauri/src/config.rs:19-36 | With no file: start_with_windows false, minimize_to_tray true, auto_connect true, theme "dark". It is an error iff the directory or the file fails. |
| GuiConfig.SaveConfig | gui/src-tauri/src/config.rs:38-44 | Writes the configuration iff the store is ready and writable, and otherwise changes nothing. |
| GuiConfig.LoadAfterSave | gui/src-tauri/src/config.rs:32-44 | Loading after saving returns the saved configuration. |
| GuiConfig.ApplySettings | gui/src-tauri/src/config.rs:55-69 | Each given setting overwrites its field, each absent one leaves it. |
| GuiConfig.ApplyNothing | gui/src-tauri/src/config.rs:53-71 | An all-None update yields the identical configuration. |
| GuiConfig.ApplyIdempotent | gui/src-tauri/src/config.rs:55-69 | Applying the same update twice is applying it once. |
| GuiConfig.UpdateSettings | gui/src-tauri/src/config.rs:46-74 | Load, merge, save. A load error aborts before anything is written. |
| GuiConfig.MergeSettings | gui/src-tauri/src/config.rs:55-69 | The conditional assignments give exactly the merged configuration. |

## Left out

- Real serial, USB and file I/O are parameters or abstract stores. This
  covers `available_ports`, `open`, the baud rate and timeout, the 10 ms
  sleep, and the fs/serde_json reads and writes. The JSON encoding of the
  configuration file is taken as given: the store holds the documents
  themselves.
- JsonLine.DecodeSample accepts only the compact three-field form the
  firmware writes. serde_json's extra leniency is not modelled: whitespace
  (including a trailing "\r" before the newline), another field order,
  escapes, and unknown fields. `PotentiometerData` does not deny unknown
  fields (gui/src-tauri/src/types.rs:3-8), so the real host decodes
  pot1-pot3 from the six-field line that firmware/src/main_mcp3008.rs
  writes (lines 42-52 and 207-210), and ignores pot4-pot6. The model drops
  such a line instead.
- Text is ASCII. `from_utf8_lossy` is modelled for bytes below 0x80 only.
  Unicode lowercasing, and multi-byte characters split across reads, are
  not modelled.
- Volumes and percentages are integers. The f32 arithmetic of
  `to_percentages` is modelled as exact integer rounding. Types.NoTie proves
  only that no raw value gives an exact tie. That f32's error, for raw
  ≤ 4095, is too small to push a value across a rounding boundary is argued
  informally, not proved. `get_master_volume` and `get_audio_sessions` are
  inputs.
- Concurrency is sequentialised. This covers tokio tasks, `select!`,
  channel capacity, locking and the cancellation token. One reader step or
  one tick is taken at a time, from an explicit script. A connect by
  another task during a running reader is a detach or an attach step. The
  reader keeps its accumulator across an attach.
- Each successful `connect_serial` starts another reader task and router
  (mixer-gui/src-tauri/src/lib.rs:35-43), while an old reader that has not
  yet polled an empty slot goes on reading the new port. Two readers
  splitting one port's text between them are not modelled. Each
  ConnectSerial models one reader, alone on the port.
- MixerApp.RunRouter and MixerApp.ConnectSerial take the mappings each
  sample sees as an input, one copy per sample. Which save or clear lands
  between which two samples is a scheduling matter that is not modelled.
  SaveRedirects and ClearSilences say what a copy taken after each one
  routes.
- Tauri wiring, the tray and menu handlers, and event emission are not
  modelled. Events are kept as output logs.
- Platform audio bindings are reached only through the abstract backend.
  These are the Windows COM code, the macOS `osascript`/`pgrep` code and
  the stubs.
- The Python diagnostics, src/main.rs and the firmware's hardware setup are
  not modelled.
- firmware/src/main_mcp3008.rs's six-field JSON line (serde_json_core) is
  not modelled. Only its readings are.
- The host-side effect of a partial USB write is not modelled. The model
  records exactly the bytes the firmware's writes accepted.
- Firmware.UsbSerial.Write: the room each write finds is a script of
  counts. The USB poll that transmits buffered bytes, and so frees room
  between writes, is represented only by the next count in the script.
  usbd-serial's write also flushes. A flush error other than WouldBlock
  makes it report an error after it has buffered bytes. That case is not
  modelled: the model's write fails only when it buffers nothing.
- Mcp3008.Adc.ReadChannel: the SPI peripheral's answers are given as a
  script of three per-byte replies, so the driver is modelled for one
  exchange at a time.
- Serial.SerialManager.Connect: the source's `Result` is never `Err`;
  every failure is reported inside the status. The model keeps that.
- AudioSession has no `PartialEq` in gui/src-tauri/src/types.rs:33-40, so
  GuiApp.SessionEq writes field-wise equality out. The comparison follows
  the code, which is ordered, rather than an order-independent one.
- mixer-gui/src-tauri/src/types.rs is not part of this model. The
  `ChannelMapping` shape is inferred from its uses in
  mixer-gui/src-tauri/src/lib.rs. The model assumes that mixer-gui's
  `PotentiometerData` and `to_percentages` are those of
  gui/src-tauri/src/types.rs. Types serves both applications.
- gui/src-tauri/src/serial.rs is not part of this model. The model assumes
  that it is mixer-gui's serial.rs. GuiApp.ConnectSerial reuses Serial.
