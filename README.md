# Pin: a verified model of johnny-five's direct pin access

This project models `Pin`, the johnny-five component for direct access to one
pin of a board's IO provider, and `Pin.Array`, the collection that drives many
pins at once. The model covers:

- how the constructor classifies its argument. It decides the pin's type
  ("analog" or "digital"), its address, its initial mode and whether it
  samples. This uses the helpers `Pin.isAnalog` and `Pin.isPrefixed`.
- the private side table (`mode`, `last`, `value`, `read`) and the `mode`
  setter;
- `write`, `read`, `high`, `low` and `query`, with the provider calls and the
  events each one issues, in order;
- the sampling interval, as an explicit `Tick()`;
- the provider's read callback, as an explicit `Feed(data)`;
- `Pin.Array`: construction from a list or from the registry of every pin
  constructed, `each`, the forwarded `high`/`low`/`write`, and `Pin.purge`.

The IO provider is a class `IO` that records every call it receives
(`pinMode`, `analogWrite`/`digitalWrite`, `analogRead`/`digitalRead`,
`queryPinState`) in a log. A pin's emitted events are an ordered log on the
pin. The registry (`priv`, a `Map` keyed by pin) is a class holding the
sequence of pins in construction order.

Files and modules:

- `values.dfy` (`PinTypes`): the JavaScript values a pin is built from, their
  truthiness, and the mode constants.
- `classify.dfy` (`Classification`): `isPrefixed`, `isAnalog`, and the
  constructor's classification as a pure function `Classify`.
- `sampling.dfy` (`Sampling`): the side table, one tick as a pure function,
  runs of ticks, and the edge-detection properties of a run.
- `pins.dfy` (`Pins`): the provider's call log, the registry, and the `Pin`
  class. Each `Pin` method is proved against the pure definitions.
- `pin_array.dfy` (`PinArrays`): the `PinArray` class and the loops that build
  it and forward operations to its members.

Where the code and its comments differ, the model follows the code:

- The first tick in INPUT mode fires an edge. `last` starts unset, is set to
  the opposite label and then compared (`lib/pin.js:99-104`).
- The `mode` setter calls `pinMode` every time. It does so even when the mode
  is unchanged, although the comment at `lib/pin.js:161` says it is skipped.
- `write` stores the written value in the side table's `value`
  (`lib/pin.js:158`).
- `Pin.Array` without a list takes the registry in insertion order.
  JavaScript `Map` keys iterate in that order (`lib/pin.js:7,57,289`).

## Model

| member | source | states |
|---|---|---|
| Classification.ReducePrefixesFinds | lib/pin.js:147-152 | The `reduce` is true exactly when it started true or some prefix equals the first character. |
| Classification.IsPrefixed | lib/pin.js:144-153 | `isPrefixed(value, prefixes)` holds iff `value` is non-empty and its first character is one of `prefixes`. |
| Classification.IsAnalogIff | lib/pin.js:132-142 | `isAnalog` holds iff the value it reaches is a string starting with "A" or "I". Through options objects it follows `addr` when defined, else `pin`. |
| Classification.Classify | lib/pin.js:30-85 | Covers the whole classification: (1) the address is `pinValue` for a provider analog pin (DTOA), else the resolved address; (2) the type is a truthy `opts.type`, else "analog" iff analog-prefixed and not DTOA, else "digital"; (3) the mode is `as`, else `mode`, else ANALOG for an analog input, else OUTPUT; (4) `freq` defaults to 20; (5) sampling happens iff the mode is INPUT or ANALOG. |
| Classification.DtoaIsDigitalOutput | lib/pin.js:40-47 | A pin listed in the provider's `analogPins`, with no type, `as` or `mode` given, is a digital OUTPUT at `pinValue` that does not sample. |
| Classification.NumberSetup | lib/pin.js:283-285 | A bare number `n` gives a digital OUTPUT pin at `n` that does not sample, with `freq` 20. |
| Sampling.TickStep | lib/pin.js:90-108 | A tick keeps mode and `read`, sets `value := read` and ends with exactly one "data" event. In INPUT mode the label's edge fires iff `last` is not already that label, and `last` becomes the label. In any other mode no edge fires and `last` is kept. |
| Sampling.RunInput | lib/pin.js:93-106 | In INPUT mode, tick 0 fires its sample's edge unless `last` already holds it. Every later tick fires iff its sample's truthiness differs from the previous sample's. Afterwards `last` is the final sample's label and `value` is the final sample. |
| Sampling.RunOtherMode | lib/pin.js:93-107 | In any mode other than INPUT, every tick emits only "data", `last` never changes, and `value` ends as the last sample. |
| Sampling.EdgesAlternate | lib/pin.js:98-105 | In INPUT mode, two edges with no edge between them differ. So the same edge never fires on two consecutive ticks. |
| Pins.QueryIndex | lib/pin.js:209-213 | The queried index is the address. For an analog pin it is instead `analogPins[addr]`, or `undefined` when the address is not an index of that table. |
| Pins.HighValue | lib/pin.js:230 | `high()` writes 255 iff the type is "analog" and 1 otherwise. |
| Pins.Registry.Purge | lib/pin.js:329-333 | The registry is empty afterwards. |
| Pins.Pin.constructor | lib/pin.js:50-88 | The pin's fields are `Classify` of its argument and its side table starts as `{last: unset, value: 0, read: 0}`. The pin is appended to the registry, which keeps every registered pin on the registry's provider. The provider receives `pinMode(addr, mode)`, then, iff it samples, one `<type>Read(addr)`. |
| Pins.Pin.SetMode | lib/pin.js:69-73 | The mode is stored and exactly one `pinMode(addr, mode)` is issued, even for an unchanged mode. Nothing else changes. |
| Pins.Pin.Feed | lib/pin.js:86-88 | The read callback changes only `read`. |
| Pins.Pin.Tick | lib/pin.js:90-108 | The side table and event log advance exactly as `TickStep` says. |
| Pins.Pin.Write | lib/pin.js:155-168 | `value := v`, the mode becomes OUTPUT, and the calls are `pinMode(addr, OUTPUT)` then one `<type>Write(addr, v)`. One "write" event with `v` follows. `last` and `read` are kept, and the pin is returned. |
| Pins.Pin.Read | lib/pin.js:170-178 | The mode becomes INPUT and the calls are `pinMode(addr, INPUT)` then one `<type>Read(addr)`. No event is emitted, and the pin is returned. |
| Pins.Pin.Query | lib/pin.js:208-222 | Exactly one `queryPinState` call is issued, with the translated index, and the pin is returned. |
| Pins.Pin.High | lib/pin.js:229-234 | Behaves as `write(255)` on an analog pin and `write(1)` otherwise, then emits "high" after "write". Returns the pin. |
| Pins.Pin.Low | lib/pin.js:241-245 | Behaves as `write(0)`, then emits "low" after "write". Returns the pin. |
| Pins.Pin.Apply | lib/pin.js:323 | Dispatching a forwarded `high`, `low` or `write(v)` has that method's effect on the pin and the provider. |
| PinArrays.Wrap | lib/pin.js:282-286 | A number becomes a new registered digital OUTPUT pin at that address, with one `pinMode` call. Any other entry is kept identical and nothing is called. |
| PinArrays.PinArray.constructor | lib/pin.js:273-297 | With a list, it covers: the list is left empty; the collection has the list's length and order; numbers become new pins at that address; other entries are kept identical; the new pins are registered, and their `pinMode` calls issued, in list order. Without a list, the collection is the registry in insertion order, and nothing is called. |
| PinArrays.PinArray.Each | lib/pin.js:304-312 | The callback is applied once per member, in index order, with the member and its index. The collection is returned. |
| PinArrays.PinArray.Step | lib/pin.js:322-323 | One loop iteration forwards the operation to member `i` and moves the loop to `i + 1`. |
| PinArrays.PinArray.Forward | lib/pin.js:319-326 | The provider receives each member's calls in index order. A member listed k times receives the operation k times: k copies of its events, and its written value and OUTPUT mode. `last` and `read` are kept. |
| PinArrays.PinArray.High | lib/pin.js:314-327 | Forwards `high()` to every member in index order: the provider receives each member's calls in turn; each member holds `HighValue` and OUTPUT, keeps `last` and `read`, and gains one "write"+"high" pair per listing. Returns the collection. |
| PinArrays.PinArray.Low | lib/pin.js:314-327 | Forwards `low()` to every member in index order: the provider receives each member's calls in turn; each member holds 0 and OUTPUT, keeps `last` and `read`, and gains one "write"+"low" pair per listing. Returns the collection. |
| PinArrays.PinArray.Write | lib/pin.js:314-327 | Forwards `write(v)`, with the same argument, to every member in index order: the provider receives each member's calls in turn; each member holds `v` and OUTPUT, keeps `last` and `read`, and gains one "write" event per listing. Returns the collection. |

## Left out

- Listener management of the EventEmitter is left out. Emitted events are only an ordered log on the pin, and "write" keeps its value but not its always-`null` error slot.
- `setInterval` timing and the asynchronous read callback are left out. They are the explicit calls `Tick()` and `Feed(data)`. `freq` is recorded but has no effect.
- `Board.Component` and `Board.Options` are not part of this model. The address they resolve is the constructor's `resolved` parameter, and the provider comes from the registry. Bare numbers and strings carry no `as`, `mode`, `type` or `freq`.
- `Descriptor` and `util.inherits` are not part of this model. `addr`, `type`, `freq` and the sampling decision are constant fields.
- The behaviour of the provider is left out: the contents it hands to the read and query callbacks, the `io.pins` records, and its wire protocol. The callbacks given to `read` and `query` are not modelled, because the provider alone would call them.
- The `IS_TEST_MODE` gating of `Pin.purge` is environment input and is left out.
- Pins.Registry.Purge: in the source, a pin constructed before `purge` has no side table afterwards, so its `write` or `mode` would throw. The model keeps such a pin's state.
- PinArrays.PinArray.constructor: every member must use the registry's provider, so collections spanning several boards are not modelled.
- PinArrays.PinArray.Each: the callback is a pure function of the member and index. A callback that changes state, or is called with a receiver, is not modelled.
- Pins.QueryIndex: the address indexes `analogPins` only as an integer. A string address that spells an index is treated as any other string, so its index is `undefined`.
- Classification.IsPrefixed: strings are sequences of Unicode characters, not of UTF-16 code units. `value[0]` is the whole first character, so a prefix outside the Basic Multilingual Plane (an emoji, say) can match here where the source, comparing a lone surrogate, never matches. The prefixes the constructor passes, "I" and "A", behave the same either way.
- Sample values are integers. `NaN`, `null`, booleans and floating-point samples are not modelled.
- The commented-out prototype methods at `lib/pin.js:181-205` are not modelled.
