/** How a Pin's constructor classifies its argument: the prefix helpers
    `Pin.isPrefixed` and `Pin.isAnalog`, and the address, type, initial mode,
    sampling period and sampling decision derived from them. */
module Classification {
  import opened PinTypes

  /** The first character of a string; `None` stands for `""[0]`, which is `undefined`. */
  function FirstChar(s: string): Option<char> {
    if s == [] then None else Some(s[0])
  }

  /** The `reduce` inside `Pin.isPrefixed`, folded left to right: while the
      resolution is false it becomes whether the next prefix equals the first
      character; once true it stays true. */
  function ReducePrefixes(resolution: bool, first: Option<char>, prefixes: seq<string>): bool
    decreases |prefixes|
  {
    if prefixes == [] then resolution
    else
      var next := if !resolution then first.Some? && prefixes[0] == [first.value] else resolution;
      ReducePrefixes(next, first, prefixes[1..])
  }

  /** The fold finds a prefix equal to the first character exactly when one is there. */
  lemma {:induction false} ReducePrefixesFinds(resolution: bool, first: Option<char>, prefixes: seq<string>)
    ensures ReducePrefixes(resolution, first, prefixes)
        <==> resolution || (first.Some? && [first.value] in prefixes)
    decreases |prefixes|
  {
    if prefixes != [] {
      var next := if !resolution then first.Some? && prefixes[0] == [first.value] else resolution;
      ReducePrefixesFinds(next, first, prefixes[1..]);
      assert prefixes == [prefixes[0]] + prefixes[1..];
    }
  }

  /** `Pin.isPrefixed(value, prefixes)`: whether the first character of `value` is one of `prefixes`. */
  function IsPrefixed(value: string, prefixes: seq<string>): (r: bool)
    ensures r <==> |value| > 0 && [value[0]] in prefixes
  {
    ReducePrefixesFinds(false, FirstChar(value), prefixes);
    ReducePrefixes(false, FirstChar(value), prefixes)
  }

  /** `Pin.isAnalog(opts)`; its `undefined` result is falsy and is `false` here. */
  function IsAnalog(opts: Value): bool {
    match opts
    case Str(s) => IsPrefixed(s, ["I", "A"])
    case Options(addr, pin, _, _, _, _) =>
      if !addr.Undefined? then IsAnalog(addr) else IsAnalog(pin)
    case _ => false
  }

  /** The value `Pin.isAnalog` ends up inspecting: through nested options it
      follows `addr` when that is defined and `pin` otherwise. */
  function Designated(opts: Value): (d: Value)
    ensures !d.Options?
  {
    match opts
    case Options(addr, pin, _, _, _, _) =>
      if !addr.Undefined? then Designated(addr) else Designated(pin)
    case _ => opts
  }

  /** A pin name with an analog prefix: a string starting with "A" or "I". */
  predicate AnalogName(v: Value) {
    v.Str? && |v.s| > 0 && (v.s[0] == 'A' || v.s[0] == 'I')
  }

  /** `Pin.isAnalog` holds exactly of arguments that designate an analog-prefixed name. */
  lemma {:induction false} IsAnalogIff(opts: Value)
    ensures IsAnalog(opts) <==> AnalogName(Designated(opts))
  {
    match opts
    case Str(s) =>
      assert IsAnalog(opts) <==> |s| > 0 && [s[0]] in ["I", "A"];
      if |s| > 0 {
        assert [s[0]] in ["I", "A"] <==> s[0] == 'I' || s[0] == 'A';
      }
    case Options(addr, pin, _, _, _, _) =>
      if !addr.Undefined? { IsAnalogIff(addr); } else { IsAnalogIff(pin); }
    case _ =>
  }

  /** `pinValue`: for an options object `opts.addr || opts.pin || 0`, otherwise the argument itself. */
  function PinValue(opts: Value): Value {
    match opts
    case Options(addr, pin, _, _, _, _) =>
      if Truthy(addr) then addr else if Truthy(pin) then pin else Num(0)
    case _ => opts
  }

  /** `isDTOA`: the provider lists `pinValue` among its analog pins (`includes` never equates a string with a number). */
  predicate IsDtoa(opts: Value, analogPins: seq<int>) {
    PinValue(opts).Num? && PinValue(opts).n in analogPins
  }

  /** `isAnalogInput` after the DTOA override. */
  predicate IsAnalogInput(opts: Value, analogPins: seq<int>) {
    IsAnalog(opts) && !IsDtoa(opts, analogPins)
  }

  /** `opts.type` when it is present and truthy. */
  function TypeOverride(opts: Value): Option<string> {
    if opts.Options? && opts.kind.Some? && opts.kind.value != "" then opts.kind else None
  }

  /** What the constructor fixes before it programs the mode. */
  datatype Setup = Setup(addr: Value, kind: string, mode: int, freq: int, sampling: bool)

  /** The constructor's classification of `opts` against the provider's
      `analogPins`; `resolved` is the address Board.Options leaves in
      `opts.addr || opts.pin`. */
  function Classify(opts: Value, analogPins: seq<int>, resolved: Value): (r: Setup)
    ensures r.addr == if IsDtoa(opts, analogPins) then PinValue(opts) else resolved
    ensures TypeOverride(opts).Some? ==> r.kind == TypeOverride(opts).value
    ensures TypeOverride(opts).None? ==>
      && (r.kind == "analog" || r.kind == "digital")
      && (r.kind == "analog" <==> AnalogName(Designated(opts)) && !IsDtoa(opts, analogPins))
    ensures opts.Options? && opts.asMode.Some? ==> r.mode == opts.asMode.value
    ensures opts.Options? && opts.asMode.None? && opts.mode.Some? ==> r.mode == opts.mode.value
    ensures !(opts.Options? && (opts.asMode.Some? || opts.mode.Some?)) ==>
      r.mode == if AnalogName(Designated(opts)) && !IsDtoa(opts, analogPins) then ANALOG else OUTPUT
    ensures r.freq == if opts.Options? && opts.freq.Some? then opts.freq.value else 20
    ensures r.sampling <==> r.mode == INPUT || r.mode == ANALOG
  {
    IsAnalogIff(opts);
    var analogInput := IsAnalogInput(opts, analogPins);
    var addr := if IsDtoa(opts, analogPins) then PinValue(opts) else resolved;
    var kind := if TypeOverride(opts).Some? then TypeOverride(opts).value
                else if analogInput then "analog" else "digital";
    var mode := if opts.Options? && opts.asMode.Some? then opts.asMode.value
                else if opts.Options? && opts.mode.Some? then opts.mode.value
                else if analogInput then ANALOG else OUTPUT;
    var freq := if opts.Options? && opts.freq.Some? then opts.freq.value else 20;
    Setup(addr, kind, mode, freq, mode == INPUT || mode == ANALOG)
  }

  /** A provider analog pin given by number is a digital output that is not sampled,
      whatever `Pin.isAnalog` says, unless the options say otherwise. */
  lemma DtoaIsDigitalOutput(opts: Value, analogPins: seq<int>, resolved: Value)
    requires IsDtoa(opts, analogPins)
    requires TypeOverride(opts).None?
    requires !(opts.Options? && (opts.asMode.Some? || opts.mode.Some?))
    ensures var r := Classify(opts, analogPins, resolved);
      r.addr == PinValue(opts) && r.kind == "digital" && r.mode == OUTPUT && !r.sampling
  {
  }

  /** A bare number `n` (as `Pin.Array` passes it) becomes a digital output pin at address `n`. */
  lemma NumberSetup(n: int, analogPins: seq<int>)
    ensures Classify(Num(n), analogPins, Num(n)) == Setup(Num(n), "digital", OUTPUT, 20, false)
  {
  }
}
