# Single-slot smart parking monitor — Dafny model

This project models the logic of an ESP32 sketch that watches one parking
slot (`HTH23.c++`). On every pass of its `loop` the sketch reads an IR sensor
into the global flag `slot1` (a LOW level means a car is present). It then
lights the red LED and sounds the buzzer when the slot is occupied, or lights
the green LED when it is free. It measures the distance at the entrance and
logs an event when a car is closer than 15 cm. Last, it lets the web server
answer one pending request. The web server has three routes:

- `/` returns the dashboard page;
- `/status` returns the JSON object `{"slot1":…,"free":…,"total":1}` built by
  `getStatusJSON`;
- every other path returns 404 `Not found`.

Files and modules:

- `controller.dfy`, module `Controller`: the pin levels, the specification
  `Actuate` of one `loop` iteration, `Run` for a sequence of iterations, and
  the class `Device` whose fields are the sketch's `slot1` and its three output
  pins. `Device.Step` is one call of `loop`.
- `status.dfy`, module `Status`: `getStatusJSON` and a reader for the
  document's fixed shape. This is a JSON object as in section 4 of RFC 8259,
  with the members the dashboard reads.
- `http.dfy`, module `Http`: the route table, the three handlers and the
  dispatch `Serve`. The codes are 200 (section 15.3.1 of RFC 9110) and 404
  (section 15.5.5 of RFC 9110).
- `decimal.dfy`, module `Decimal`: the Arduino `String(int)` conversion and
  its inverse. The inverse reads the integer form of a JSON number (section 6
  of RFC 8259).
- `wrappers.dfy`, module `Wrappers`: `Option`.

Decisions and modelling assumptions:

- The dashboard page is the opaque body `Http.DashboardPage`.
- The web server is assumed to match a request path exactly against the
  registered routes and to use the first route registered for that path. Paths
  that match no route go to the not-found handler. The request method is
  ignored, because `server.on` is called without a method.
- `Device.Step` receives the IR level as `irLow` and the distance as an
  integer `distCm`. A missing echo arrives as 0. The request pending at
  `server.handleClient()`, if there is one, arrives as `request`, and `Step`
  returns the response to it. So a response always reflects the sample taken
  in the same iteration.
- `getStatusJSON` writes the `"total"` member as the literal text `1`. The
  model writes it as `String(TotalSlots)` with `TotalSlots == 1`. The contract
  of `Status.StatusJSON` proves that the result is the same text, character
  for character.
- Before the first `loop`, the sketch's `slot1` is `false` (line 19). `setup`
  (lines 113-115) sets the output pin modes but writes no level, and the model
  assumes the pins start Low. So "exactly one of the two LEDs is lit" holds
  after every `Step`, not from power-on: `Device.Step` and
  `RunKeepsConsistent` establish and keep it, and the state after
  construction does not satisfy it.
- A request reaches `Http.Serve` as its URL path with the query string
  already removed, as the web server library does before matching routes.

## Model

| member | source | states |
|---|---|---|
| `Controller.Actuate` | HTH23.c++:140-148 | after an iteration that read `irLow`, `slot1 == irLow`; exactly one of red and green is High; red is High iff `slot1`; the buzzer is High iff `slot1` |
| `Controller.ConsistentIsActuate` | HTH23.c++:143-148 | any pin state in which exactly one LED is lit, red and buzzer follow the flag is the one `loop` produces for that flag (consistency determines the outputs) |
| `Controller.RunLastSampleWins` | HTH23.c++:140 | after any non-empty sequence of `loop` iterations, from any starting state, the flag and outputs depend only on the last IR sample |
| `Controller.RunKeepsConsistent` | HTH23.c++:143-148 | once the outputs agree with the flag they agree after every further iteration |
| `Controller.RunIgnoresDistance` | HTH23.c++:151-154 | two runs with the same IR samples end in the same flag and outputs, whatever distances were measured |
| `Controller.Run` | HTH23.c++:138-157 | repeated calls of `loop`: with no call the state is unchanged; after at least one, `slot1` is the last IR sample |
| `Controller.Device.constructor` | HTH23.c++:113-115 | `slot1` starts false (line 19); the output pins, which `setup` only configures, are assumed to start Low |
| `Controller.Device.Step` | HTH23.c++:138-157 | the new flag and pins are `Actuate(irLow)`, so the old state is irrelevant; the new state is consistent; the entrance event fires iff `0 < distCm < 15`; a pending request is answered by `Serve` from the flag just sampled |
| `Status.Slot1Field` | HTH23.c++:35 | the `"slot1"` member is 0 or 1, and 1 exactly when the slot is occupied |
| `Status.FreeSlots` | HTH23.c++:33 | `free + slot1 == total` with `total == 1`; no free slot exactly when occupied |
| `Status.StatusJSON` | HTH23.c++:32-40 | `getStatusJSON` is exactly `{"slot1":1,"free":0,"total":1}` when occupied and exactly `{"slot1":0,"free":1,"total":1}` when free |
| `Status.ParseStatusText` | HTH23.c++:34-38 | a document in the shape `getStatusJSON` writes reads back as the three integers written into it |
| `Status.StatusRoundTrip` | HTH23.c++:32-40 | reading the document back gives slot1 = 1 iff occupied, free = 1 - slot1 and total = 1, so free + slot1 == total holds in every document served |
| `Status.StatusJSONDetermines` | HTH23.c++:35 | two equal status documents come from the same occupancy flag |
| `Decimal.Digits` | HTH23.c++:35-36 | `String(n)` for n ≥ 0 is a non-empty string of decimal digits with no leading zero |
| `Decimal.ValueOfDigits` | HTH23.c++:35-36 | the digits `String(n)` writes denote n |
| `Decimal.IntToString` | HTH23.c++:35-36 | `String(n)` is non-empty and starts with '-' exactly when n < 0 |
| `Decimal.ReadIntString` | HTH23.c++:35-36 | reading an integer back from `String(n)` followed by a non-digit gives n and leaves the rest unread |
| `Http.Lookup` | HTH23.c++:131-133 | the lookup finds a handler iff some route's path equals the request path, and then it is the handler of the first such route |
| `Http.Invoke` | HTH23.c++:97-101 | `handleRoot` and `handleStatus` both answer 200; the root handler sends the dashboard as `text/html`, the status handler sends `getStatusJSON()` as `application/json` |
| `Http.Serve` | HTH23.c++:97-105 | `/` gives 200 `text/html` with the dashboard; `/status` gives 200 `application/json` with `getStatusJSON()`; every other path gives 404 `text/plain` with `Not found` |
| `Http.ServeStatusSnapshot` | HTH23.c++:100-102 | the body served at `/status` reads back as the occupancy it was built from, with free + slot1 == total == 1 |

## Left out

- WiFi association and its blocking retry loop (lines 121-128): network I/O whose only result is being connected.
- The web server's transport, `server.begin` and `server.handleClient` (lines 134, 156): library code outside this model. Only the path-to-response mapping is modelled. A request is given to `Step` as its path, with the query string already removed by the library.
- `readUltrasonicCM` (lines 22-30): trigger pulses, echo timing by `pulseIn`, and the floating-point conversion `duration * 0.034 / 2` truncated to `long`. The distance reaches `Step` as an integer.
- The dashboard's HTML, CSS and JavaScript (lines 44-95): presentation only. It is the opaque body `DashboardPage`. The JSON reader `Status.ParseStatus` handles only the fixed shape the sketch writes. It is not a general JSON parser.
- `Serial` output and `pinMode` setup (lines 110-118, 122-128, 153): the log line is the boolean `entrance` that `Step` returns.
- Decimal.IntToString: integers are unbounded rather than 32-bit. The sketch only converts 0 and 1, so no wrap-around can occur.
