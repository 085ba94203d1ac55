/**
 * The dynasty list of `src/globals.js` and the duration pass of `drawBigEvents` in
 * `src/timeline.js`. Each entry is a JavaScript array `[start, name, ...]`, and the pass
 * pushes a duration onto every entry except the last. `EVENTS` is declared here rather than
 * with the other constants in `Globals` because its entries have the type `EventEntry`,
 * which only this module's pass gives meaning to.
 */
module Timeline {
  import opened Wrappers
  import opened Globals

  /** An `EVENTS` entry: `d[0]` is `start`, `d[1]` is `name`, `d[2], d[3], …` are `pushed`. */
  datatype EventEntry = EventEntry(start: int, name: string, pushed: seq<int>)

  /** The `EVENTS` constant as declared: start years and names, nothing pushed yet. */
  const EVENTS: seq<EventEntry> := [
    EventEntry(618, "唐朝", []),
    EventEntry(907, "五代十国", []),
    EventEntry(960, "北宋", []),
    EventEntry(1127, "南宋", []),
    EventEntry(1276, "元朝", []),
    EventEntry(1368, "明朝", []),
    EventEntry(1636, "清朝", []),
    EventEntry(1911, "清朝结束(这个不要绘制!)", [])
  ]

  /**
   * `EVENTS` holds eight fresh entries with strictly ascending start years, from `YEAR_MIN`
   * to `YEAR_MAX`, so the lemmas about ascending fresh lists apply to it.
   */
  lemma EventsAscending()
    ensures |EVENTS| == 8
    ensures forall k :: 0 <= k < |EVENTS| ==> Fresh(EVENTS[k])
    ensures forall k :: 0 <= k < |EVENTS| - 1 ==> EVENTS[k].start < EVENTS[k + 1].start
    ensures EVENTS[0].start == YEAR_MIN && EVENTS[|EVENTS| - 1].start == YEAR_MAX
  {
  }

  /** `d[2]`: the first pushed element, `undefined` (`None`) before any push. */
  function Duration(e: EventEntry): Option<int>
  {
    if |e.pushed| > 0 then Some(e.pushed[0]) else None
  }

  /** An entry no pass has touched yet. */
  predicate Fresh(e: EventEntry)
  {
    e.pushed == []
  }

  /** Entry `k` with the gap to entry `k + 1` pushed onto it. */
  function Pushed(events: seq<EventEntry>, k: nat): EventEntry
    requires k + 1 < |events|
  {
    events[k].(pushed := events[k].pushed + [events[k + 1].start - events[k].start])
  }

  /** What one pass of the loop leaves behind: entry `i < len-1` gains `start[i+1] - start[i]`. */
  function WithDurations(events: seq<EventEntry>): seq<EventEntry>
  {
    seq(|events|, i requires 0 <= i < |events| => if i + 1 < |events| then Pushed(events, i) else events[i])
  }

  /** The loop of `drawBigEvents`, pushing onto the entries of `events` in place. */
  method ComputeDurations(events: array<EventEntry>)
    modifies events
    ensures events[..] == WithDurations(old(events[..]))
  {
    ghost var before := events[..];
    var i := 0;
    while i + 1 < events.Length
      invariant |before| == events.Length
      invariant 0 <= i <= events.Length
      invariant i == 0 || i < events.Length
      invariant forall k :: 0 <= k < i ==> events[k] == Pushed(before, k)
      invariant forall k :: i <= k < events.Length ==> events[k] == before[k]
      decreases events.Length - i
    {
      events[i] := events[i].(pushed := events[i].pushed + [events[i + 1].start - events[i].start]);
      i := i + 1;
    }
    PassComplete(before, events[..]);
  }

  /** A list that agrees with one pass entry by entry is the result of that pass. */
  lemma PassComplete(before: seq<EventEntry>, after: seq<EventEntry>)
    requires |after| == |before|
    requires forall k :: 0 <= k < |before| - 1 ==> after[k] == Pushed(before, k)
    requires |before| > 0 ==> after[|before| - 1] == before[|before| - 1]
    ensures after == WithDurations(before)
  {
  }

  /** `EVENTS.slice(0, -1)`: every entry but the last; `[]` for an empty list. */
  function Drawn(events: seq<EventEntry>): (r: seq<EventEntry>)
    ensures |r| == if |events| == 0 then 0 else |events| - 1
    ensures forall i :: 0 <= i < |r| ==> r[i] == events[i]
  {
    if |events| == 0 then [] else events[..|events| - 1]
  }

  /** The tooltip's end year `d[0] + d[2]`; `undefined` makes it `NaN` (`None`). */
  function TooltipEnd(e: EventEntry): (r: Option<int>)
    ensures r.Some? <==> Duration(e).Some?
    ensures r.Some? ==> r.value - e.start == Duration(e).value
  {
    match Duration(e)
    case None => None
    case Some(d) => Some(e.start + d)
  }

  /** The sum of the durations of `events`, counting an entry without one as 0. */
  function DurationSum(events: seq<EventEntry>): int
  {
    if |events| == 0 then 0
    else (match Duration(events[0]) case None => 0 case Some(d) => d) + DurationSum(events[1..])
  }

  /**
   * After one pass over fresh entries, every entry but the last has the gap to its successor
   * as its duration, keeps its start and name, and holds exactly one pushed element.
   */
  lemma DurationsAfterPass(events: seq<EventEntry>)
    requires forall k :: 0 <= k < |events| ==> Fresh(events[k])
    ensures |WithDurations(events)| == |events|
    ensures forall i :: 0 <= i < |events| - 1 ==>
      Duration(WithDurations(events)[i]) == Some(events[i + 1].start - events[i].start) &&
      |WithDurations(events)[i].pushed| == 1
    ensures forall i :: 0 <= i < |events| ==>
      WithDurations(events)[i].start == events[i].start && WithDurations(events)[i].name == events[i].name
  {
    var after := WithDurations(events);
    forall i | 0 <= i < |events| - 1
      ensures Duration(after[i]) == Some(events[i + 1].start - events[i].start) && |after[i].pushed| == 1
    {
      assert Fresh(events[i]);
      assert after[i].pushed == [events[i + 1].start - events[i].start];
    }
  }

  /** The loop stops before the last entry, and the drawing leaves that entry out too. */
  lemma LastEntryUntouched(events: seq<EventEntry>)
    requires |events| > 0
    ensures WithDurations(events)[|events| - 1] == events[|events| - 1]
    ensures Drawn(WithDurations(events)) == WithDurations(events)[..|events| - 1]
  {
  }

  /** Every drawn tooltip ends where the next event starts. */
  lemma TooltipEndsAtNextStart(events: seq<EventEntry>, i: int)
    requires forall k :: 0 <= k < |events| ==> Fresh(events[k])
    requires 0 <= i < |Drawn(WithDurations(events))|
    ensures TooltipEnd(Drawn(WithDurations(events))[i]) == Some(events[i + 1].start)
  {
  }

  /** With strictly ascending start years, every drawn duration is positive. */
  lemma AscendingGivesPositiveDurations(events: seq<EventEntry>)
    requires forall k :: 0 <= k < |events| ==> Fresh(events[k])
    requires forall k :: 0 <= k < |events| - 1 ==> events[k].start < events[k + 1].start
    ensures forall i :: 0 <= i < |Drawn(WithDurations(events))| ==>
      Duration(Drawn(WithDurations(events))[i]).Some? && Duration(Drawn(WithDurations(events))[i]).value > 0
  {
  }

  /** The pass on a list of two or more entries is the head's push followed by the pass on the tail. */
  lemma WithDurationsCons(events: seq<EventEntry>)
    requires |events| >= 2
    ensures WithDurations(events)
         == [events[0].(pushed := events[0].pushed + [events[1].start - events[0].start])] + WithDurations(events[1..])
  {
    var lhs := WithDurations(events);
    var rhs := [events[0].(pushed := events[0].pushed + [events[1].start - events[0].start])] + WithDurations(events[1..]);
    assert |lhs| == |rhs|;
    forall k | 0 <= k < |lhs|
      ensures lhs[k] == rhs[k]
    {
      if k > 0 {
        assert rhs[k] == WithDurations(events[1..])[k - 1];
      }
    }
  }

  /** The drawn durations telescope to the span from the first start to the last. */
  lemma {:induction false} DurationsTelescope(events: seq<EventEntry>)
    requires |events| > 0
    requires forall k :: 0 <= k < |events| ==> Fresh(events[k])
    ensures DurationSum(Drawn(WithDurations(events))) == events[|events| - 1].start - events[0].start
    decreases |events|
  {
    if |events| == 1 {
      assert Drawn(WithDurations(events)) == [];
    } else {
      var tail := events[1..];
      WithDurationsCons(events);
      DurationsTelescope(tail);
      var head := events[0].(pushed := events[0].pushed + [events[1].start - events[0].start]);
      assert Drawn(WithDurations(events)) == [head] + Drawn(WithDurations(tail));
      assert ([head] + Drawn(WithDurations(tail)))[1..] == Drawn(WithDurations(tail));
      assert Duration(head) == Some(events[1].start - events[0].start);
    }
  }

  /** For the dynasties of `EVENTS` the drawn durations add up to 1911 - 618 = 1293 years. */
  lemma EventsSpan1293()
    ensures DurationSum(Drawn(WithDurations(EVENTS))) == 1293
  {
    DurationsTelescope(EVENTS);
  }

  /** Every dynasty of `EVENTS` that is drawn gets a positive duration. */
  lemma EventsDurationsPositive()
    ensures forall i :: 0 <= i < |Drawn(WithDurations(EVENTS))| ==>
      Duration(Drawn(WithDurations(EVENTS))[i]).Some? && Duration(Drawn(WithDurations(EVENTS))[i]).value > 0
  {
    EventsAscending();
    AscendingGivesPositiveDurations(EVENTS);
  }

  /**
   * Running the pass a second time (a second `drawBigEvents`) pushes one more element onto
   * every entry but the last, and leaves `d[2]`, the start and the name of every entry as
   * the first pass set them.
   */
  lemma SecondPassKeepsDurations(events: seq<EventEntry>)
    ensures |WithDurations(WithDurations(events))| == |events|
    ensures forall i :: 0 <= i < |events| - 1 ==>
      |WithDurations(WithDurations(events))[i].pushed| == |WithDurations(events)[i].pushed| + 1 &&
      Duration(WithDurations(WithDurations(events))[i]) == Duration(WithDurations(events)[i])
    ensures forall i :: 0 <= i < |events| ==>
      WithDurations(WithDurations(events))[i].start == events[i].start &&
      WithDurations(WithDurations(events))[i].name == events[i].name
    ensures |events| > 0 ==> WithDurations(WithDurations(events))[|events| - 1] == events[|events| - 1]
  {
  }
}
