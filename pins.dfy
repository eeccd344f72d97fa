/** A Pin bound to an IO provider: its side table, the `mode` setter, the
    sample tick, and the operations that drive the provider. The provider is
    known only by the calls it receives, and events only by the order in
    which they are emitted. */
module Pins {
  import opened PinTypes
  import opened Classification
  import opened Sampling

  /** One call into the IO provider. `TypedWrite(kind, addr, v)` is
      `io[kind + "Write"](addr, v)`: `analogWrite` for the kind "analog",
      `digitalWrite` for "digital". `TypedRead(kind, addr)` is
      `io[kind + "Read"](addr, callback)`. */
  datatype IoCall =
    | PinMode(addr: Value, mode: int)
    | TypedWrite(kind: string, addr: Value, value: int)
    | TypedRead(kind: string, addr: Value)
    | QueryPinState(index: Value)

  /** The IO provider: its table of analog pins and the calls it has received, in order. */
  class IO {
    const analogPins: seq<int>
    var calls: seq<IoCall>

    constructor (analogPins: seq<int>)
      ensures this.analogPins == analogPins && calls == []
    {
      this.analogPins := analogPins;
      calls := [];
    }

    method Call(c: IoCall)
      modifies this
      ensures calls == old(calls) + [c]
    {
      calls := calls + [c];
    }
  }

  /** The registry of every Pin constructed, in construction order (the keys
      of the side-table map), together with the provider they talk to. */
  class Registry {
    const io: IO
    var pins: seq<Pin>

    /** Every registered pin talks to this registry's provider. */
    ghost predicate Valid()
      reads this
    {
      forall i :: 0 <= i < |pins| ==> pins[i].io == io
    }

    constructor (io: IO)
      ensures this.io == io && pins == [] && Valid()
    {
      this.io := io;
      pins := [];
    }

    /** `Pin.purge`: forget every constructed pin. */
    method Purge()
      modifies this
      ensures pins == [] && Valid()
    {
      pins := [];
    }
  }

  /** The index `query` asks the provider about: the address itself, or for
      an analog pin the entry of `analogPins` at that address (`undefined`
      when the address is not an index of that table). */
  function QueryIndex(kind: string, addr: Value, analogPins: seq<int>): (index: Value)
    ensures kind != "analog" ==> index == addr
    ensures kind == "analog" ==> (index.Num? <==> addr.Num? && 0 <= addr.n < |analogPins|)
    ensures kind == "analog" && index.Num? ==> index.n == analogPins[addr.n]
    ensures kind == "analog" && !index.Num? ==> index == Undefined
  {
    if kind == "analog" then
      if addr.Num? && 0 <= addr.n < |analogPins| then Num(analogPins[addr.n]) else Undefined
    else addr
  }

  /** The value `high()` writes: 255 on an analog pin, 1 otherwise. */
  function HighValue(kind: string): (v: int)
    ensures v == 255 <==> kind == "analog"
    ensures v == 1 <==> kind != "analog"
  {
    if kind == "analog" then 255 else 1
  }

  /** The operations `Pin.Array` forwards to its members. */
  datatype Op = HighOp | LowOp | WriteOp(v: int)

  /** The value a forwarded operation writes on a pin of the given kind. */
  function OpValue(op: Op, kind: string): int {
    match op
    case HighOp => HighValue(kind)
    case LowOp => 0
    case WriteOp(v) => v
  }

  /** The events a forwarded operation emits on one pin: "write", then "high" or "low" for those two. */
  function OpEvents(op: Op, kind: string): seq<Event> {
    match op
    case HighOp => [Event.Write(HighValue(kind)), Edge(High)]
    case LowOp => [Event.Write(0), Edge(Low)]
    case WriteOp(v) => [Event.Write(v)]
  }

  /** The provider calls a forwarded operation issues for one pin. */
  function OpCalls(op: Op, p: Pin): seq<IoCall> {
    [PinMode(p.addr, OUTPUT), TypedWrite(p.kind, p.addr, OpValue(op, p.kind))]
  }

  class Pin {
    const io: IO
    const addr: Value
    const kind: string
    const freq: int
    /** Whether the constructor subscribed to reads and started the sample tick. */
    const sampling: bool
    var mode: int
    var last: Option<Level>
    var value: int
    var read: int
    var events: seq<Event>

    /** The side table. */
    function State(): SideTable
      reads this
    {
      SideTable(mode, last, value, read)
    }

    /** `new Pin(opts)`: classify the argument, register the pin, program its
        mode and, for INPUT or ANALOG, subscribe to reads. `resolved` is the
        address Board.Options puts in `opts.addr || opts.pin`. */
    constructor (registry: Registry, opts: Value, resolved: Value)
      modifies registry, registry.io
      ensures io == registry.io
      ensures Setup(addr, kind, mode, freq, sampling) == Classify(opts, io.analogPins, resolved)
      ensures last == None && value == 0 && read == 0 && events == []
      ensures registry.pins == old(registry.pins) + [this]
      ensures old(registry.Valid()) ==> registry.Valid()
      ensures io.calls == old(registry.io.calls) + [PinMode(addr, mode)]
                        + (if sampling then [TypedRead(kind, addr)] else [])
    {
      var setup := Classify(opts, registry.io.analogPins, resolved);
      io := registry.io;
      addr, kind, freq, sampling := setup.addr, setup.kind, setup.freq, setup.sampling;
      last, value, read, events := None, 0, 0, [];
      new;
      registry.pins := registry.pins + [this];
      SetMode(setup.mode);
      if mode == INPUT || mode == ANALOG {
        io.Call(TypedRead(kind, addr));
      }
    }

    /** The `mode` setter: store the mode and program it, even when it is unchanged. */
    method SetMode(m: int)
      modifies this, io
      ensures mode == m
      ensures last == old(last) && value == old(value) && read == old(read) && events == old(events)
      ensures io.calls == old(io.calls) + [PinMode(addr, m)]
    {
      mode := m;
      io.Call(PinMode(addr, m));
    }

    /** The read subscription's callback: record the raw sample. */
    method Feed(data: int)
      requires sampling
      modifies this
      ensures State() == Fed(old(State()), data) && events == old(events)
    {
      read := data;
    }

    /** One run of the sampling interval. */
    method Tick()
      requires sampling
      modifies this
      ensures State() == TickStep(old(State())).next
      ensures events == old(events) + TickStep(old(State())).emitted
    {
      value := read;
      var isNot := if value != 0 then Level.Low else Level.High;
      var emit := if value != 0 then Level.High else Level.Low;
      if mode == INPUT {
        if last == None {
          last := Some(isNot);
        }
        if last == Some(isNot) {
          last := Some(emit);
          events := events + [Edge(emit)];
        }
      }
      events := events + [Data];
    }

    /** `write(v)`: store the value, program OUTPUT, write through the
        provider and emit "write"; returns the pin. */
    method Write(v: int) returns (self: Pin)
      modifies this, io
      ensures self == this
      ensures value == v && mode == OUTPUT && last == old(last) && read == old(read)
      ensures events == old(events) + [Event.Write(v)]
      ensures io.calls == old(io.calls) + [PinMode(addr, OUTPUT), TypedWrite(kind, addr, v)]
    {
      value := v;
      SetMode(OUTPUT);
      io.Call(TypedWrite(kind, addr, v));
      events := events + [Event.Write(v)];
      self := this;
    }

    /** `read(callback)`: program INPUT and ask the provider for a read; the
        callback is the provider's to call. Returns the pin. */
    method Read() returns (self: Pin)
      modifies this, io
      ensures self == this
      ensures mode == INPUT
      ensures last == old(last) && value == old(value) && read == old(read) && events == old(events)
      ensures io.calls == old(io.calls) + [PinMode(addr, INPUT), TypedRead(kind, addr)]
    {
      SetMode(INPUT);
      io.Call(TypedRead(kind, addr));
      self := this;
    }

    /** `query(callback)`: ask the provider for the state of the translated index. */
    method Query() returns (self: Pin)
      modifies io
      ensures self == this
      ensures io.calls == old(io.calls) + [QueryPinState(QueryIndex(kind, addr, io.analogPins))]
    {
      var index := addr;
      if kind == "analog" {
        index := if addr.Num? && 0 <= addr.n < |io.analogPins| then Num(io.analogPins[addr.n]) else Undefined;
      }
      io.Call(QueryPinState(index));
      self := this;
    }

    /** `high()`: write 255 (analog) or 1, then emit "high". */
    method High() returns (self: Pin)
      modifies this, io
      ensures self == this
      ensures value == HighValue(kind) && mode == OUTPUT && last == old(last) && read == old(read)
      ensures events == old(events) + [Event.Write(HighValue(kind)), Edge(Level.High)]
      ensures io.calls == old(io.calls) + [PinMode(addr, OUTPUT), TypedWrite(kind, addr, HighValue(kind))]
    {
      var v := if kind == "analog" then 255 else 1;
      var _ := Write(v);
      events := events + [Edge(Level.High)];
      self := this;
    }

    /** `low()`: write 0, then emit "low". */
    method Low() returns (self: Pin)
      modifies this, io
      ensures self == this
      ensures value == 0 && mode == OUTPUT && last == old(last) && read == old(read)
      ensures events == old(events) + [Event.Write(0), Edge(Level.Low)]
      ensures io.calls == old(io.calls) + [PinMode(addr, OUTPUT), TypedWrite(kind, addr, 0)]
    {
      var _ := Write(0);
      events := events + [Edge(Level.Low)];
      self := this;
    }

    /** `this[method].apply(this, arguments)` for the operations `Pin.Array` forwards. */
    method Apply(op: Op)
      modifies this, io
      ensures value == OpValue(op, kind) && mode == OUTPUT && last == old(last) && read == old(read)
      ensures events == old(events) + OpEvents(op, kind)
      ensures io.calls == old(io.calls) + OpCalls(op, this)
    {
      match op
      case HighOp => var _ := High();
      case LowOp => var _ := Low();
      case WriteOp(v) => var _ := Write(v);
    }
  }
}
