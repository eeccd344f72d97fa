/** `Pin.Array`: an ordered, fixed-length collection of Pins that forwards
    `high`, `low` and `write` to every member in index order. */
module PinArrays {
  import opened PinTypes
  import opened Classification
  import opened Sampling
  import opened Pins

  /** An element of the list given to `Pin.Array`: a pin number, or anything
      else, which is kept as it is (a Pin). */
  datatype Entry = Number(n: int) | Existing(pin: Pin)

  /** The caller's array, which construction empties with `shift`. */
  class EntryList {
    var entries: seq<Entry>

    constructor (entries: seq<Entry>)
      ensures this.entries == entries
    {
      this.entries := entries;
    }
  }

  /** The provider calls made by the Pins constructed for the numbers among `entries`. */
  function NumberCalls(entries: seq<Entry>): seq<IoCall> {
    if entries == [] then []
    else
      var e := entries[|entries| - 1];
      NumberCalls(entries[..|entries| - 1]) + (if e.Number? then [PinMode(Num(e.n), OUTPUT)] else [])
  }

  /** The members standing where `entries` holds a number: the Pins construction created, in order. */
  function Created(entries: seq<Entry>, items: seq<Pin>): seq<Pin>
    requires |entries| == |items|
  {
    if entries == [] then []
    else
      Created(entries[..|entries| - 1], items[..|items| - 1])
        + (if entries[|entries| - 1].Number? then [items[|items| - 1]] else [])
  }

  /** Wrapping one more entry appends the calls of the Pin created for it, if any. */
  lemma NumberCallsStep(base: seq<IoCall>, entries: seq<Entry>, k: nat)
    requires k < |entries|
    ensures base + NumberCalls(entries[..k])
              + (if entries[k].Number? then [PinMode(Num(entries[k].n), OUTPUT)] else [])
            == base + NumberCalls(entries[..k + 1])
  {
    assert entries[..k + 1][..k] == entries[..k];
  }

  /** Wrapping one more entry registers the Pin created for it, if any. */
  lemma CreatedStep(base: seq<Pin>, entries: seq<Entry>, acc: seq<Pin>, p: Pin)
    requires |acc| < |entries|
    ensures base + Created(entries[..|acc|], acc) + (if entries[|acc|].Number? then [p] else [])
            == base + Created(entries[..|acc| + 1], acc + [p])
  {
    var e, items := entries[..|acc| + 1], acc + [p];
    assert e[..|e| - 1] == entries[..|acc|];
    assert items[..|items| - 1] == acc;
    AppendAssoc(base, Created(entries[..|acc|], acc), if entries[|acc|].Number? then [p] else []);
  }

  /** Concatenation regroups. Dafny proves this unaided; calling it names the
      regrouping `CreatedStep` needs, which keeps that proof cheap. */
  lemma AppendAssoc<T>(a: seq<T>, b: seq<T>, c: seq<T>)
    ensures a + b + c == a + (b + c)
  {
  }

  /** The provider calls of an operation forwarded to `items` in index order. */
  function ForwardCalls(op: Op, items: seq<Pin>): seq<IoCall> {
    if items == [] then [] else ForwardCalls(op, items[..|items| - 1]) + OpCalls(op, items[|items| - 1])
  }

  /** `n` copies of `e`, one after the other. */
  function Repeat(e: seq<Event>, n: nat): seq<Event> {
    if n == 0 then [] else Repeat(e, n - 1) + e
  }

  /** One more forwarded operation appends one more copy of its events. */
  lemma RepeatStep(base: seq<Event>, e: seq<Event>, n: nat)
    ensures base + Repeat(e, n) + e == base + Repeat(e, n + 1)
  {
    assert Repeat(e, n + 1) == Repeat(e, n) + e;
  }

  /** Taking one more member into the prefix counts it once more. */
  lemma MultisetStep(s: seq<Pin>, i: nat, q: Pin)
    requires i < |s|
    ensures multiset(s[..i + 1])[q] == multiset(s[..i])[q] + (if s[i] == q then 1 else 0)
  {
    assert s[..i + 1] == s[..i] + [s[i]];
  }

  /** Forwarding to one more member appends that member's calls. */
  lemma ForwardCallsStep(base: seq<IoCall>, op: Op, s: seq<Pin>, i: nat)
    requires i < |s|
    ensures base + ForwardCalls(op, s[..i]) + OpCalls(op, s[i]) == base + ForwardCalls(op, s[..i + 1])
  {
    assert s[..i + 1][..i] == s[..i];
  }

  /** Where pin `q` stands after `n` of the forwarded operations reached it:
      `last` and `read` as they were, the events of `n` operations appended
      to its log and, once reached, the written value and OUTPUT mode. */
  ghost predicate Forwarded(op: Op, q: Pin, last: Option<Level>, read: int, log: seq<Event>, n: nat)
    reads q
  {
    && q.last == last && q.read == read
    && q.events == log + Repeat(OpEvents(op, q.kind), n)
    && (n > 0 ==> q.value == OpValue(op, q.kind) && q.mode == OUTPUT)
  }

  /** A new Pin at address `n`: a digital output that is not sampled, with a fresh side table. */
  ghost predicate NewOutput(p: Pin, n: int)
    reads p
  {
    && p.addr == Num(n) && p.kind == "digital" && p.mode == OUTPUT && !p.sampling
    && p.last == None && p.value == 0 && p.read == 0 && p.events == []
  }

  /** Member `p` stands for entry `e`: the entry itself when it is not a
      number, a new Pin at that address when it is; either way it talks to `io`. */
  ghost predicate Wraps(e: Entry, p: Pin, io: IO)
    reads p
  {
    && p.io == io
    && match e
       case Existing(q) => p == q
       case Number(n) => NewOutput(p, n)
  }

  /** One step of construction: a number becomes a new Pin at that address,
      anything else is kept as it is. */
  method Wrap(registry: Registry, e: Entry) returns (p: Pin)
    requires registry.Valid()
    requires e.Existing? ==> e.pin.io == registry.io
    modifies registry, registry.io
    ensures registry.Valid() && Wraps(e, p, registry.io)
    ensures e.Number? ==> fresh(p)
    ensures registry.pins == old(registry.pins) + (if e.Number? then [p] else [])
    ensures registry.io.calls == old(registry.io.calls) + (if e.Number? then [PinMode(Num(e.n), OUTPUT)] else [])
  {
    match e {
      case Number(n) =>
        NumberSetup(n, registry.io.analogPins);
        p := new Pin(registry, Num(n), Num(n));
      case Existing(q) =>
        p := q;
    }
  }

  /** The part of a Pin's state a forwarded operation does not overwrite, as it was before. */
  datatype Snapshot = Snapshot(last: Option<Level>, read: int, log: seq<Event>)

  /** The snapshot of every member, in index order. */
  ghost function Snapshots(s: seq<Pin>): (r: seq<Snapshot>)
    reads set q | q in s
    ensures |r| == |s|
    ensures forall j :: 0 <= j < |s| ==> r[j] == Snapshot(s[j].last, s[j].read, s[j].events)
  {
    if s == [] then [] else Snapshots(s[..|s| - 1]) + [Snapshot(s[|s| - 1].last, s[|s| - 1].read, s[|s| - 1].events)]
  }

  /** Once the operation has been forwarded to every member, each was reached at least once. */
  lemma AllReached(op: Op, items: seq<Pin>, base: seq<IoCall>, calls: seq<IoCall>, before: seq<Snapshot>)
    requires |before| == |items|
    requires calls == base + ForwardCalls(op, items[..|items|])
    requires forall j :: 0 <= j < |items| ==>
      Forwarded(op, items[j], before[j].last, before[j].read, before[j].log, multiset(items[..|items|])[items[j]])
    ensures calls == base + ForwardCalls(op, items)
    ensures forall j :: 0 <= j < |items| ==>
      && items[j].value == OpValue(op, items[j].kind) && items[j].mode == OUTPUT
      && items[j].last == before[j].last && items[j].read == before[j].read
      && items[j].events == before[j].log + Repeat(OpEvents(op, items[j].kind), multiset(items)[items[j]])
  {
    assert items[..|items|] == items;
    forall j | 0 <= j < |items| ensures multiset(items)[items[j]] > 0 {
      assert items[j] in multiset(items);
    }
  }

  class PinArray {
    const io: IO
    const items: seq<Pin>

    /** Every member talks to this collection's provider. */
    ghost predicate Valid() {
      forall i :: 0 <= i < |items| ==> items[i].io == io
    }

    /** `length`, fixed at construction. */
    function Length(): nat {
      |items|
    }

    /** `new Pin.Array(list)`. With a list, shift it empty, wrapping each
        number into a new Pin at that address and keeping every other entry;
        without one (`null` here), take every registered Pin in registration order. */
    constructor (registry: Registry, list: EntryList?)
      requires registry.Valid()
      requires list != null ==>
        forall i :: 0 <= i < |list.entries| && list.entries[i].Existing? ==> list.entries[i].pin.io == registry.io
      modifies registry, registry.io, list
      ensures io == registry.io && Valid() && registry.Valid()
      ensures list == null ==>
        && items == old(registry.pins)
        && registry.pins == old(registry.pins)
        && io.calls == old(registry.io.calls)
      ensures list != null ==>
        && list.entries == []
        && |items| == |old(list.entries)|
        && (forall i :: 0 <= i < |items| ==> Wraps(old(list.entries)[i], items[i], io))
        && (forall i :: 0 <= i < |items| && old(list.entries)[i].Number? ==> fresh(items[i]))
        && registry.pins == old(registry.pins) + Created(old(list.entries), items)
        && io.calls == old(registry.io.calls) + NumberCalls(old(list.entries))
    {
      var acc: seq<Pin> := [];
      if list != null {
        ghost var entries := list.entries;
        while |list.entries| > 0
          invariant |acc| <= |entries| && list.entries == entries[|acc|..]
          invariant forall i :: 0 <= i < |acc| ==> Wraps(entries[i], acc[i], registry.io)
          invariant forall i :: 0 <= i < |acc| && entries[i].Number? ==> fresh(acc[i])
          invariant registry.Valid()
          invariant registry.pins == old(registry.pins) + Created(entries[..|acc|], acc)
          invariant registry.io.calls == old(registry.io.calls) + NumberCalls(entries[..|acc|])
          decreases |list.entries|
        {
          var entry := list.entries[0];
          list.entries := list.entries[1..];
          var p := Wrap(registry, entry);
          NumberCallsStep(old(registry.io.calls), entries, |acc|);
          CreatedStep(old(registry.pins), entries, acc, p);
          assert list.entries == entries[|acc| + 1..];
          forall i | 0 <= i < |acc| + 1
            ensures Wraps(entries[i], (acc + [p])[i], registry.io)
            ensures entries[i].Number? ==> fresh((acc + [p])[i])
          {
            if i < |acc| { assert (acc + [p])[i] == acc[i]; }
          }
          acc := acc + [p];
        }
        assert entries[..|acc|] == entries;
      } else {
        acc := registry.pins;
      }
      io := registry.io;
      items := acc;
    }

    /** `each(fn)`: call `fn(member, index)` once per member in index order.
        The callback is a function here; the results of its calls, in call
        order, stand for the calls. Returns the collection. */
    method Each<T>(fn: (Pin, nat) -> T) returns (self: PinArray, results: seq<T>)
      ensures self == this
      ensures |results| == |items|
      ensures forall i :: 0 <= i < |items| ==> results[i] == fn(items[i], i)
    {
      var length := |items|;
      results := [];
      for i := 0 to length
        invariant |results| == i
        invariant forall k :: 0 <= k < i ==> results[k] == fn(items[k], k)
      {
        results := results + [fn(items[i], i)];
      }
      self := this;
    }

    /** Where the forwarder stands after reaching the first `i` members:
        the provider has received their calls after `base`, and every member
        stands where the operations that reached it leave it. */
    ghost predicate Progress(op: Op, base: seq<IoCall>, before: seq<Snapshot>, i: nat)
      requires |before| == |items| && i <= |items|
      reads io, set q | q in items
    {
      && io.calls == base + ForwardCalls(op, items[..i])
      && forall j :: 0 <= j < |items| ==>
           Forwarded(op, items[j], before[j].last, before[j].read, before[j].log, multiset(items[..i])[items[j]])
    }

    /** One iteration of the forwarder: apply `op` to member `i`. */
    method Step(op: Op, ghost base: seq<IoCall>, ghost before: seq<Snapshot>, i: nat)
      requires Valid() && |before| == |items| && i < |items|
      requires Progress(op, base, before, i)
      modifies items, io
      ensures Progress(op, base, before, i + 1)
    {
      var p := items[i];
      p.Apply(op);
      ForwardCallsStep(base, op, items, i);
      forall j | 0 <= j < |items|
        ensures Forwarded(op, items[j], before[j].last, before[j].read, before[j].log, multiset(items[..i + 1])[items[j]])
      {
        var q := items[j];
        MultisetStep(items, i, q);
        if q == p {
          RepeatStep(before[j].log, OpEvents(op, q.kind), multiset(items[..i])[q]);
        }
      }
    }

    /** The generated forwarder: apply `op` to every member in index order.
        A Pin listed twice receives the operation twice. */
    method Forward(op: Op)
      requires Valid()
      modifies items, io
      ensures io.calls == old(io.calls) + ForwardCalls(op, items)
      ensures var before := old(Snapshots(items));
        forall j :: 0 <= j < |items| ==>
          && items[j].value == OpValue(op, items[j].kind) && items[j].mode == OUTPUT
          && items[j].last == before[j].last && items[j].read == before[j].read
          && items[j].events == before[j].log + Repeat(OpEvents(op, items[j].kind), multiset(items)[items[j]])
    {
      ghost var before := Snapshots(items);
      var length := |items|;
      for i := 0 to length
        invariant Progress(op, old(io.calls), before, i)
      {
        Step(op, old(io.calls), before, i);
      }
      AllReached(op, items, old(io.calls), io.calls, before);
    }

    /** `high()` on every member; returns the collection. */
    method High() returns (self: PinArray)
      requires Valid()
      modifies items, io
      ensures self == this
      ensures io.calls == old(io.calls) + ForwardCalls(HighOp, items)
      ensures forall j :: 0 <= j < |items| ==>
        && items[j].value == HighValue(items[j].kind) && items[j].mode == OUTPUT
        && items[j].last == old(items[j].last) && items[j].read == old(items[j].read)
        && items[j].events == old(items[j].events) + Repeat(OpEvents(HighOp, items[j].kind), multiset(items)[items[j]])
    {
      Forward(HighOp);
      self := this;
    }

    /** `low()` on every member; returns the collection. */
    method Low() returns (self: PinArray)
      requires Valid()
      modifies items, io
      ensures self == this
      ensures io.calls == old(io.calls) + ForwardCalls(LowOp, items)
      ensures forall j :: 0 <= j < |items| ==>
        && items[j].value == 0 && items[j].mode == OUTPUT
        && items[j].last == old(items[j].last) && items[j].read == old(items[j].read)
        && items[j].events == old(items[j].events) + Repeat(OpEvents(LowOp, items[j].kind), multiset(items)[items[j]])
    {
      Forward(LowOp);
      self := this;
    }

    /** `write(v)` on every member, with the same argument; returns the collection. */
    method Write(v: int) returns (self: PinArray)
      requires Valid()
      modifies items, io
      ensures self == this
      ensures io.calls == old(io.calls) + ForwardCalls(WriteOp(v), items)
      ensures forall j :: 0 <= j < |items| ==>
        && items[j].value == v && items[j].mode == OUTPUT
        && items[j].last == old(items[j].last) && items[j].read == old(items[j].read)
        && items[j].events == old(items[j].events) + Repeat([Event.Write(v)], multiset(items)[items[j]])
    {
      Forward(WriteOp(v));
      self := this;
    }
  }
}
