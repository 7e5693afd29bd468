/** The publisher of dbus-dcp-tank: a bus service whose `/Level`,
    `/Remaining` and `/UpdateIndex` properties a 5-second timer refreshes
    from the depth sensor. The bus dictionary is replaced by plain fields;
    the timer is replaced by whoever calls `Tick`. */
module LevelService {
  import opened Wrappers
  import opened DepthSensor

  /** Largest value `/UpdateIndex` takes before it wraps to 0. */
  const MaxUpdateIndex: int := 255

  /** The publisher's view of the world: the last published sum
      `level + remaining`, the published `/Level` and `/Remaining`
      (initially `None`) and `/UpdateIndex`. */
  datatype Published = Published(last: real, level: Option<real>, remaining: Option<real>, updateIndex: int)

  /** State right after the service is constructed. */
  const Initial: Published := Published(-2.0, None, None, 0)

  /** The index advance as written: add one, and reset to 0 past 255. */
  function NextIndex(i: int): (j: int)
    ensures i < MaxUpdateIndex ==> j == i + 1
    ensures i >= MaxUpdateIndex ==> j == 0
  {
    var index := i + 1;
    if index > MaxUpdateIndex then 0 else index
  }

  /** The triple `_update` unpacks from `get_level()`; a bare `None`
      cannot be unpacked. */
  function Unpack(r: LevelResult): (t: (real, real, bool))
    requires !r.NoData?
    ensures t.2 <==> r.ReadError?
    ensures r.ReadError? ==> t == (-1.0, -1.0, true)
    ensures r.Reading? ==> t == (r.pct, r.rem, false)
  {
    match r
    case Reading(pct, rem) => (pct, rem, false)
    case ReadError => (-1.0, -1.0, true)
  }

  /** Whether a tick with this reading writes `/Level` and `/Remaining`. */
  predicate Writes(p: Published, r: LevelResult)
  {
    r.Reading? && p.last != r.pct + r.rem
  }

  /** One run of `_update` on the published state, as a function. */
  function Step(p: Published, r: LevelResult): (q: Published)
    requires !r.NoData?
    ensures r.ReadError? ==> q == p
    ensures r.Reading? ==> q.updateIndex == NextIndex(p.updateIndex) && q.last == r.pct + r.rem
    ensures Writes(p, r) ==> q.level == Some(r.pct) && q.remaining == Some(r.rem)
    ensures !Writes(p, r) ==> q.level == p.level && q.remaining == p.remaining
  {
    var (level, remaining, err) := Unpack(r);
    if err then p
    else
      var current := level + remaining;
      var written :=
        if p.last != current then p.(level := Some(level), remaining := Some(remaining), last := current)
        else p;
      written.(updateIndex := NextIndex(written.updateIndex))
  }

  /** A write to one of the writeable paths from another process on the
      bus. The bus library stores an accepted value in the path; `last` is
      not touched. */
  datatype BusWrite = SetLevel(level: Option<real>) | SetRemaining(remaining: Option<real>) | SetUpdateIndex(index: int)

  /** The published state after an accepted external write. */
  function Written(p: Published, w: BusWrite): (q: Published)
    ensures q.last == p.last
    ensures q.level == (if w.SetLevel? then w.level else p.level)
    ensures q.remaining == (if w.SetRemaining? then w.remaining else p.remaining)
    ensures q.updateIndex == (if w.SetUpdateIndex? then w.index else p.updateIndex)
  {
    match w
    case SetLevel(v) => p.(level := v)
    case SetRemaining(v) => p.(remaining := v)
    case SetUpdateIndex(i) => p.(updateIndex := i)
  }

  /** The readings of a sequence of ticks, none of them the sentinel. */
  predicate Tickable(rs: seq<LevelResult>)
  {
    forall i :: 0 <= i < |rs| ==> !rs[i].NoData?
  }

  /** Successive ticks, oldest reading first. */
  function Run(p: Published, rs: seq<LevelResult>): (q: Published)
    requires Tickable(rs)
    decreases |rs|
  {
    if rs == [] then p else Run(Step(p, rs[0]), rs[1..])
  }

  /** Number of successful readings among rs. */
  function Successes(rs: seq<LevelResult>): nat
  {
    if rs == [] then 0 else (if rs[0].Reading? then 1 else 0) + Successes(rs[1..])
  }

  /** The published pair is either still the initial one or a reading of the
      fixed-geometry sensor whose sum is `last`. */
  ghost predicate Coherent(p: Published)
  {
    || (p.level == None && p.remaining == None && p.last == -2.0)
    || (p.level.Some? && p.remaining.Some? && OnDefaultLine(p.level.value, p.remaining.value)
        && p.last == p.level.value + p.remaining.value)
  }

  /** The bus service with its three dynamic properties. */
  class Service {
    const sensor: Sensor
    var last: real
    var level: Option<real>
    var remaining: Option<real>
    var updateIndex: int

    function State(): Published
      reads this
    {
      Published(last, level, remaining, updateIndex)
    }

    /** The service after registration: `last` is -2, `/Level` and
        `/Remaining` start as `None`, `/UpdateIndex` as 0. */
    constructor (depthSensor: Sensor)
      ensures sensor == depthSensor && State() == Initial
    {
      sensor := depthSensor;
      last := -2.0;
      level := None;
      remaining := None;
      updateIndex := 0;
    }

    /** `_update`: read the sensor, skip the cycle on error, publish the pair
        when its sum changed, advance the index; always keep the timer. */
    method Tick(read: RegisterRead) returns (keepTimer: bool)
      requires CanConvert(sensor, read) && read != Ok(NoDataSentinel)
      modifies this
      ensures keepTimer
      ensures State() == Step(old(State()), GetLevel(sensor, read))
    {
      var reading := GetLevel(sensor, read);
      var (lv, rm, err) := Unpack(reading);
      if err {
        return true;
      }
      var current := lv + rm;
      if last != current {
        level := Some(lv);
        remaining := Some(rm);
        last := current;
      }
      var index := updateIndex + 1;
      if index > MaxUpdateIndex {
        index := 0;
      }
      updateIndex := index;
      return true;
    }

    /** `_handlechangedvalue`: every external write is accepted. */
    method HandleChangedValue(w: BusWrite) returns (accepted: bool)
      ensures accepted
    {
      accepted := true;
    }

    /** An external write: the callback is asked, and the bus library
        stores the value when it accepts, which it always does. */
    method ExternalWrite(w: BusWrite)
      modifies this
      ensures State() == Written(old(State()), w)
    {
      var accepted := HandleChangedValue(w);
      if accepted {
        match w
        case SetLevel(v) => level := v;
        case SetRemaining(v) => remaining := v;
        case SetUpdateIndex(i) => updateIndex := i;
      }
    }
  }

  // ---------------------------------------------------------------------
  // Properties
  // ---------------------------------------------------------------------

  /** From -1 to 255, the index advance is addition modulo 256; 255 wraps
      to 0. */
  lemma NextIndexIsModular(i: int)
    requires -1 <= i <= MaxUpdateIndex
    ensures NextIndex(i) == (i + 1) % 256
    ensures 0 <= NextIndex(i) <= MaxUpdateIndex
  {
  }

  /** One tick lands the index in 0..255 exactly when the index was at
      least -1: a value written from outside above 255 is reset, a negative
      one below -1 is not. */
  lemma NextIndexInRange(i: int)
    ensures 0 <= NextIndex(i) <= MaxUpdateIndex <==> i >= -1
  {
  }

  /** Repeating a reading writes nothing more: the second tick only advances
      the index. */
  lemma RepeatedReadingSuppressed(p: Published, pct: real, rem: real)
    ensures var q := Step(p, Reading(pct, rem));
      !Writes(q, Reading(pct, rem))
      && Step(q, Reading(pct, rem)) == q.(updateIndex := NextIndex(q.updateIndex))
  {
  }

  /** Over any run from an index in range, the index stays in range and
      counts the successful readings modulo 256. */
  lemma {:induction false} RunIndex(p: Published, rs: seq<LevelResult>)
    requires Tickable(rs)
    requires 0 <= p.updateIndex <= MaxUpdateIndex
    ensures Run(p, rs).updateIndex == (p.updateIndex + Successes(rs)) % 256
    decreases |rs|
  {
    if rs != [] {
      var q := Step(p, rs[0]);
      assert Tickable(rs[1..]) by {
        forall i | 0 <= i < |rs[1..]| ensures !rs[1..][i].NoData? {
          assert rs[1..][i] == rs[i + 1];
        }
      }
      if rs[0].Reading? {
        NextIndexIsModular(p.updateIndex);
      }
      RunIndex(q, rs[1..]);
    }
  }

  /** With the fixed geometry, sums of distinct readings differ, so
      suppression never hides a change: after a successful tick the
      published pair is that reading. */
  lemma StepPublishesReading(p: Published, pct: real, rem: real)
    requires Coherent(p) && OnDefaultLine(pct, rem)
    ensures var q := Step(p, Reading(pct, rem));
      Coherent(q) && q.level == Some(pct) && q.remaining == Some(rem)
  {
    if p.last == pct + rem {
      // The sum of a reading is 5 + 0.95 * pct >= 5, never the initial -2,
      // and it determines pct.
      assert p.level.Some?;
      assert 0.95 * p.level.value == 0.95 * pct;
    }
  }

  /** Every run of readings from the fixed-geometry sensor keeps the
      published state coherent. */
  lemma {:induction false} RunCoherent(p: Published, rs: seq<LevelResult>)
    requires Coherent(p) && Tickable(rs)
    requires forall i :: 0 <= i < |rs| && rs[i].Reading? ==> OnDefaultLine(rs[i].pct, rs[i].rem)
    ensures Coherent(Run(p, rs))
    decreases |rs|
  {
    if rs != [] {
      if rs[0].Reading? {
        StepPublishesReading(p, rs[0].pct, rs[0].rem);
      }
      assert Tickable(rs[1..]) by {
        forall i | 0 <= i < |rs[1..]| ensures !rs[1..][i].NoData? {
          assert rs[1..][i] == rs[i + 1];
        }
      }
      RunCoherent(Step(p, rs[0]), rs[1..]);
    }
  }

  /** A successful step on a reading of a sensor built by start-up
      publishes that reading. */
  lemma StepPublishesSensorReading(p: Published, connected: bool, unitRead: RegisterRead,
                                   scalingRead: RegisterRead, read: RegisterRead)
    requires Coherent(p)
    requires CanConvert(NewSensor(connected, unitRead, scalingRead), read)
    requires read.Ok? && read.value != NoDataSentinel
    ensures var r := GetLevel(NewSensor(connected, unitRead, scalingRead), read);
      var q := Step(p, r);
      Coherent(q) && q.level == Some(r.pct) && q.remaining == Some(r.rem)
  {
    var r := GetLevel(NewSensor(connected, unitRead, scalingRead), read);
    DefaultReadingOnLine(connected, unitRead, scalingRead, read);
    StepPublishesReading(p, r.pct, r.rem);
  }

  lemma InitialCoherent()
    ensures Coherent(Initial)
  {
  }

  /** Coherence needs the absence of external writes: after one reading
      is published, a write of 99 to `/Level` leaves `last` behind, and a
      tick repeating the reading then keeps the written value published. */
  lemma ExternalWriteBreaksCoherence()
    ensures var p := Step(Initial, Reading(0.0, 5.0));
      var q := Written(p, SetLevel(Some(99.0)));
      Coherent(p) && !Coherent(q) && Step(q, Reading(0.0, 5.0)).level == Some(99.0)
  {
    var p := Step(Initial, Reading(0.0, 5.0));
    assert p.last == 5.0 && p.level == Some(0.0);
    var q := Written(p, SetLevel(Some(99.0)));
    assert !OnDefaultLine(99.0, 5.0);
  }
}
