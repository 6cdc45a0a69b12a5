# ESP32 telemetry dashboard: ingest step, polling and LED command

This project models the logic of `dashboard_iot.py`, a Streamlit page that shows
live readings from an ESP32 board and lets an operator switch the board's LED.
Streamlit reruns the whole script about once a second. Each run:

1. puts `data`, `history` and `led_state` into the session store if they are absent;
2. polls the broker once and keeps only the newest message of the polling window;
3. ingests that message. A JSON object overwrites the four readings
   (`temperature`, `humidite`, `pot`, `ir`), and a key missing from the payload
   reads 0. The four readings and a time label are then appended to five
   parallel history columns, and each column is cut to its newest 120 entries;
4. handles the two LED buttons. Each sets `led_state` to 1 or 0 and publishes
   `{"led": state}`.

Modules:

- `Wrappers`: `Option` stands for Python's `None` or a present value.
- `JsonValue`: the values `json.loads` produces and `dict.get`. The decoder
  itself is a parameter: a function from text to `Malformed` or `Parsed(value)`.
- `History`: one history column. `Truncate` is the slice `col[-120:]` and
  `Push` is one append followed by that slice. The lemmas show that the slice
  is oldest-first (FIFO) eviction. They also show that a stream of ingests
  leaves the newest 120 arrivals, in arrival order.
- `Polling`: the list that `on_message` fills, and the value `poll_mqtt` returns.
- `LedCommand`: the command object and its send, which is all-or-nothing.
- `Dashboard`: the session store as the class `Session`. Its fields are
  `None` while the key is absent from the store. `Ingest` models lines 81-108.
  `TruncateColumns` models the loop at lines 104-105. `Rerun` is one run of
  the script. A ghost table `rows` holds one row per ingested message. The
  invariant `Valid` says the five columns are the projections of at most 120
  such rows: the columns are equally long, and entries at the same index come
  from the same message. It also says the newest row equals `data`.

The model follows this script's code. A sensor key missing from a message
reads as the integer 0 (`payload.get(k, 0)`). The history keeps at most 120
entries per column, a constant written into the slice `[-120:]`. The LED
command is the JSON object `{"led": state}` with 1 for on and 0 for off. The
script has no key-alias table, data freshness check, reconnect loop, mutex or
history reset, so the model has none either.

## Model

| member | source | states |
|---|---|---|
| `JsonValue.Get` | dashboard_iot.py:88-91 | `payload.get(k, 0)`: the stored value when the key is present, the default only when it is absent |
| `History.Truncate` | dashboard_iot.py:103-105 | the slice `[-120:]` keeps `min(len, 120)` entries |
| `History.TruncateKeepsNewest` | dashboard_iot.py:105 | what survives the cut is the newest part of the column in its original order; the newest entry is always kept |
| `History.TruncateIsEviction` | dashboard_iot.py:102-105 | the slice equals evicting the oldest entry one at a time until 120 remain (FIFO eviction) |
| `History.Push` | dashboard_iot.py:96-105 | one ingest on a column: the new value is last; below 120 entries nothing is lost; at 120 exactly the oldest entry is evicted; the length never exceeds 120 |
| `History.PushAll` | dashboard_iot.py:96-105 | after any non-empty stream of ingests the column holds at most 120 entries and ends with the newest arrival |
| `History.TruncateAppend` | dashboard_iot.py:104-105 | cutting after every append keeps the same entries as one cut at the end |
| `History.PushAllIsTruncate` | dashboard_iot.py:96-105 | a stream ingested value by value leaves exactly the newest 120 arrivals of the whole stream, in arrival order |
| `History.OverflowEvictsOldest` | dashboard_iot.py:102-105 | starting empty, 121 arrivals leave all but the first, in order |
| `Polling.Inbox.constructor` | dashboard_iot.py:51 | a poll starts with no received messages |
| `Polling.Inbox.OnMessage` | dashboard_iot.py:53-57 | each delivered payload is appended after the earlier ones |
| `Polling.Latest` | dashboard_iot.py:71 | `None` exactly when nothing arrived, otherwise the last message received |
| `Polling.PollResult` | dashboard_iot.py:61-71 | a message is returned exactly when the network block completed and something arrived, and it is one of the received messages |
| `Polling.PollMqtt` | dashboard_iot.py:49-71 | a fresh list receives every delivered payload through `on_message` in delivery order, and the round returns `PollResult` of exactly the delivered texts |
| `Polling.OnlyNewestSurvives` | dashboard_iot.py:68-71 | only the newest message of a window is returned, whatever came before it; a raising block returns `None` even after deliveries |
| `LedCommand.LedPayload` | dashboard_iot.py:40 | the command is a JSON object whose only key is `led` |
| `LedCommand.LedPayloadRoundTrip` | dashboard_iot.py:40 | the `led` entry of the command reads back as the requested state, so distinct states give distinct commands |
| `LedCommand.SendLedCommand` | dashboard_iot.py:36-44 | a command is published exactly when the connection succeeds, it is exactly `{"led": state}` and reads back as the requested state; a failure is not retried |
| `Dashboard.NamesDistinct` | dashboard_iot.py:17-20 | the four data keys and the five history keys are pairwise distinct strings |
| `Dashboard.ColumnCases` | dashboard_iot.py:20 | there are exactly five history columns and the dictionary's iteration order lists every one |
| `Dashboard.InitialData` | dashboard_iot.py:16-17 | a new session's readings are all 0 |
| `Dashboard.InitialHistory` | dashboard_iot.py:19-20 | a new session's history has all five columns, each empty |
| `Dashboard.Readings.AsDict` | dashboard_iot.py:17 | `data` as a dictionary has exactly the four sensor keys |
| `Dashboard.UpdateOverwrites` | dashboard_iot.py:87-92 | `data.update` with the four extracted entries overwrites every old entry |
| `Dashboard.ExtractFields` | dashboard_iot.py:87-92 | each reading is the payload's value when its key is present (even `null`) and 0 when it is absent |
| `Dashboard.ExtractIgnoresOtherKeys` | dashboard_iot.py:87-92 | payloads that agree on the four sensor keys give the same readings, so every other key is ignored |
| `Dashboard.ExtractExample` | dashboard_iot.py:87-92 | `{"temperature": 23.6, "humidite": null, "seuil": 30}` gives readings 23.6, null, 0, 0 |
| `Dashboard.ColumnAppend` | dashboard_iot.py:96-100 | appending a row to the table appends its cell to each column |
| `Dashboard.ColumnDrop` | dashboard_iot.py:104-105 | dropping the oldest rows drops the same entries from every column |
| `Dashboard.ColumnOfPush` | dashboard_iot.py:96-105 | appending one value per column and cutting each column is the same as appending a row to the table and cutting whole rows |
| `Dashboard.ColumnsAligned` | dashboard_iot.py:96-105 | in a well-formed history the five columns are equally long and hold at most 120 entries |
| `Dashboard.PushRow` | dashboard_iot.py:96-105 | the appends and the cut keep the history well-formed, with the new row last in the table |
| `Dashboard.TruncateColumns` | dashboard_iot.py:103-105 | the loop over the history keys cuts every column to its newest 120 entries |
| `Dashboard.AppendEntries` | dashboard_iot.py:94-100 | the five appends add the time label to `time` and each current reading to its own column, one entry per column |
| `Dashboard.Classify` | dashboard_iot.py:81-92 | an absent or empty message is skipped; it is accepted exactly when it decodes to a JSON object, with the extracted readings; otherwise it is rejected, with the raw text for the warning |
| `Dashboard.Session.constructor` | dashboard_iot.py:16-23 | a new browser session holds none of the three keys |
| `Dashboard.Session.Initialize` | dashboard_iot.py:16-23 | only absent entries are filled in (zeros, empty columns, LED off); a second run changes nothing |
| `Dashboard.Session.Ingest` | dashboard_iot.py:81-108 | a skipped or rejected message leaves `data` and `history` unchanged; an accepted one sets `data` to the extracted readings and pushes the time label and the new readings onto their columns; the history stays bounded and aligned and its newest row equals `data` |
| `Dashboard.Session.PressLed` | dashboard_iot.py:152-162 | a button sets `led_state` to 1 or 0 whether or not the command is delivered, and publishes `{"led": state}` only when the connection succeeds |
| `Dashboard.Rerun` | dashboard_iot.py:16-162 | one run in script order: the polled message is classified as above; an accepted message pushes the time label and each reading onto its column of the history as initialisation left it (five empty columns on a session's first run); a skipped or rejected message leaves data and history as initialisation left them; when the page before the buttons was drawn without raising, a pressed button sets the LED state and sends its command; with no press, or when drawing raised, nothing is sent and the LED state keeps its value (0 when first created) |

## Left out

- Streamlit presentation is not modelled: titles, layout columns, gauges, line charts, the one-second auto-refresh (lines 76, 113-150, 164-178) and the error, warning and success notices (lines 44, 108, 156, 162).
- `Dashboard.Rerun`: whether drawing the page between the ingest and the buttons (lines 113-150) raises is the parameter `drawn`, not derived from the readings. The known case is a gauge given a reading that is not a number (a string, array or object that `ExtractFields` keeps): Plotly rejects it, the run ends before lines 152-162, and the click is lost. While `data` holds such a reading, every later run ends there too.
- MQTT networking is not modelled. Connecting, subscribing, the network thread, the 0.6-second wait, publishing and disconnecting are I/O. A poll is the list of delivered texts plus whether its network block raised. A send is one flag that says whether the connection succeeded. The broker address, port and topic names are constants of that I/O.
- `bytes.decode(errors="ignore")` is a library call. `OnMessage` receives the decoded text, and the `except: pass` around it is never reached.
- `json.loads` and `json.dumps` are library calls. Decoding is a parameter of `Ingest`, and the LED command is kept as a JSON value, not as its text.
- `time.strftime` reads the clock. The time label is a parameter of `Ingest`.
- Numbers are kept as `JInt` (unbounded integer) and `JFloat` (a real). The model does no arithmetic on them, ignores float rounding, and cannot represent the `NaN`, `Infinity` and `-Infinity` values that Python's `json.loads` accepts; no modelled operation inspects a reading's value, so these would flow through like any other number.
- `Dashboard.Session.Ingest`: the script appends to the stored lists in place through the alias `hist`, while the model builds the new columns and stores them once. The two agree because nothing between the first append and the last cut can raise.
- `Dashboard.Session.PressLed`: a publish or disconnect that raises after a successful connect counts as a delivered command.
