/** The sample tick of a Pin whose mode is INPUT or ANALOG at construction:
    the private side table, one tick, and runs of ticks each preceded by one
    raw sample from the provider's read callback. */
module Sampling {
  import opened PinTypes

  /** The labels "high" and "low", used both as events and as the side table's `last`. */
  datatype Level = High | Low

  /** The label a sample is truthy for: "high" for a nonzero sample, "low" for zero. */
  function LevelOf(v: int): Level {
    if v != 0 then High else Low
  }

  /** The events a Pin emits: "high" or "low", "data", and "write" with its
      arguments `(null, value)`; the error slot is always `null` and is not kept. */
  datatype Event = Edge(level: Level) | Data | Write(value: int)

  /** The private side table: `mode`, `last`, `value` and `read`. */
  datatype SideTable = SideTable(mode: int, last: Option<Level>, value: int, read: int)

  /** The side table after a tick and the events the tick emitted, in order. */
  datatype TickOutcome = TickOutcome(next: SideTable, emitted: seq<Event>)

  /** The read callback: it only records the raw sample. */
  function Fed(s: SideTable, data: int): SideTable {
    s.(read := data)
  }

  /** One sample tick. The cached value becomes the last raw sample. In INPUT
      mode an edge event for the sample's label fires exactly when `last` is
      not already that label (in particular on the first tick, when `last` is
      unset), and `last` is that label afterwards. In every other mode no edge
      fires and `last` is kept. One "data" event ends every tick. */
  function TickStep(s: SideTable): (t: TickOutcome)
    ensures t.next.mode == s.mode && t.next.read == s.read && t.next.value == s.read
    ensures s.mode != INPUT ==> t.emitted == [Data] && t.next.last == s.last
    ensures s.mode == INPUT ==> t.next.last == Some(LevelOf(s.read))
    ensures s.mode == INPUT ==>
      t.emitted == if s.last == Some(LevelOf(s.read)) then [Data] else [Edge(LevelOf(s.read)), Data]
  {
    var value := s.read;
    var isNot := if value != 0 then Low else High;
    var emit := if value != 0 then High else Low;
    if s.mode == INPUT then
      var last := if s.last == None then Some(isNot) else s.last;
      if last == Some(isNot) then
        TickOutcome(s.(value := value, last := Some(emit)), [Edge(emit), Data])
      else
        assert s.last.Some? && s.last.value != isNot;
        TickOutcome(s.(value := value, last := last), [Data])
    else
      TickOutcome(s.(value := value), [Data])
  }

  /** The side table after a run and the events of each tick. */
  datatype Trace = Trace(final: SideTable, ticks: seq<seq<Event>>)

  /** A run: before each tick the read callback delivers the next sample. */
  function Run(s: SideTable, samples: seq<int>): (r: Trace)
    ensures |r.ticks| == |samples|
    decreases |samples|
  {
    if samples == [] then Trace(s, [])
    else
      var t := TickStep(Fed(s, samples[0]));
      var rest := Run(t.next, samples[1..]);
      Trace(rest.final, [t.emitted] + rest.ticks)
  }

  /** The label the side table holds before tick `i` of a run in INPUT mode. */
  function Before(last: Option<Level>, samples: seq<int>, i: nat): Option<Level>
    requires i < |samples|
  {
    if i == 0 then last else Some(LevelOf(samples[i - 1]))
  }

  /** What one tick of an INPUT-mode run emits, given the label held before it. */
  function Expected(before: Option<Level>, sample: int): seq<Event> {
    if before == Some(LevelOf(sample)) then [Data] else [Edge(LevelOf(sample)), Data]
  }

  /** Edge detection over a run in INPUT mode: tick 0 fires the edge of its
      sample unless `last` already holds that label; every later tick fires
      exactly when its sample's truthiness differs from the previous
      sample's; every tick ends with one "data" event; afterwards `last` is
      the label of the final sample and the cached value is that sample. */
  lemma {:induction false} RunInput(s: SideTable, samples: seq<int>)
    requires s.mode == INPUT
    ensures var r := Run(s, samples);
      && |r.ticks| == |samples|
      && r.final.mode == INPUT
      && (forall i :: 0 <= i < |samples| ==> r.ticks[i] == Expected(Before(s.last, samples, i), samples[i]))
      && (samples == [] ==> r.final == s)
      && (samples != [] ==>
            r.final.last == Some(LevelOf(samples[|samples| - 1])) && r.final.value == samples[|samples| - 1])
    decreases |samples|
  {
    if samples != [] {
      var t := TickStep(Fed(s, samples[0]));
      var tail := samples[1..];
      RunInput(t.next, tail);
      var r := Run(s, samples);
      var rest := Run(t.next, tail);
      assert r.ticks == [t.emitted] + rest.ticks;
      forall i | 0 <= i < |samples|
        ensures r.ticks[i] == Expected(Before(s.last, samples, i), samples[i])
      {
        if i > 0 {
          assert r.ticks[i] == rest.ticks[i - 1];
          assert tail[i - 1] == samples[i];
          assert Before(t.next.last, tail, i - 1) == Before(s.last, samples, i);
        }
      }
    }
  }

  /** In any other mode (ANALOG in particular) a run fires no edge at all,
      one "data" event per tick, and leaves `last` as it was. */
  lemma {:induction false} RunOtherMode(s: SideTable, samples: seq<int>)
    requires s.mode != INPUT
    ensures var r := Run(s, samples);
      && |r.ticks| == |samples|
      && (forall i :: 0 <= i < |samples| ==> r.ticks[i] == [Data])
      && r.final.mode == s.mode
      && r.final.last == s.last
      && (samples != [] ==> r.final.value == samples[|samples| - 1])
    decreases |samples|
  {
    if samples != [] {
      var t := TickStep(Fed(s, samples[0]));
      RunOtherMode(t.next, samples[1..]);
      var r := Run(s, samples);
      var rest := Run(t.next, samples[1..]);
      forall i | 0 <= i < |samples| ensures r.ticks[i] == [Data] {
        if i > 0 { assert r.ticks[i] == rest.ticks[i - 1]; }
      }
    }
  }

  /** Between ticks that fire no edge the sample's label does not change. */
  lemma {:induction false} LevelSteady(last: Option<Level>, samples: seq<int>, i: nat, k: nat)
    requires i <= k < |samples|
    requires forall m :: i < m <= k ==> Expected(Before(last, samples, m), samples[m]) == [Data]
    ensures LevelOf(samples[k]) == LevelOf(samples[i])
    decreases k - i
  {
    if i < k {
      LevelSteady(last, samples, i, k - 1);
      assert Expected(Before(last, samples, k), samples[k]) == [Data];
    }
  }

  /** The alternation of edges, over the ticks a run in INPUT mode is shown to emit. */
  lemma AlternateExpected(last: Option<Level>, samples: seq<int>, i: nat, j: nat, a: Level, b: Level)
    requires i < j < |samples|
    requires Edge(a) in Expected(Before(last, samples, i), samples[i])
    requires Edge(b) in Expected(Before(last, samples, j), samples[j])
    requires forall m :: i < m < j ==> Expected(Before(last, samples, m), samples[m]) == [Data]
    ensures a != b
  {
    LevelSteady(last, samples, i, j - 1);
    assert a == LevelOf(samples[i]);
    assert b == LevelOf(samples[j]) && Some(b) != Some(LevelOf(samples[j - 1]));
  }

  /** Edge events alternate: when tick `i` fires one edge and tick `j` the
      next one, with no edge in between, the two are different. In particular
      the same edge never fires on two consecutive ticks. */
  lemma EdgesAlternate(s: SideTable, samples: seq<int>, i: nat, j: nat, a: Level, b: Level)
    requires s.mode == INPUT
    requires i < j < |samples|
    requires Edge(a) in Run(s, samples).ticks[i] && Edge(b) in Run(s, samples).ticks[j]
    requires forall m :: i < m < j ==> Run(s, samples).ticks[m] == [Data]
    ensures a != b
  {
    RunInput(s, samples);
    AlternateExpected(s.last, samples, i, j, a, b);
  }
}
