/**
 * The sampling-and-actuation loop (adjustBacklightLoop): capture the display
 * backlight once, then repeatedly reset the serial input, read a block of
 * 200 sensor bytes, stop if the stop event is set, otherwise set the
 * backlight to the mapped median of the block; on stopping, restore the
 * captured backlight.
 *
 * The serial port, the xbacklight command and the stop event are modelled
 * by their observable effects: the port hands out a given sequence of
 * blocks, the display holds its current setting, both append every call
 * made on them to one shared log of device events (so the log records how
 * the calls on the two devices interleave), and the stop event is the
 * sequence of values its check returns.
 */
module BacklightLoop {
  import opened RangeMapping
  import opened Aggregation

  /** The output range used by the loop (MIN_BACKLIGHT, MAX_BACKLIGHT). */
  const MinBacklight: int := 0
  const MaxBacklight: int := 100

  /** The number of bytes requested from the serial port per read. */
  const BlockSize: nat := 200

  /** One read(BlockSize): without a timeout the port returns exactly BlockSize bytes. */
  type Block = b: seq<Byte> | |b| == BlockSize witness seq(BlockSize, _ => 0)

  /**
   * A backlight value as the display accepts it: a computed target, or the
   * text that `xbacklight -get` printed, which is handed back unparsed.
   */
  datatype Setting = Target(level: real) | Reported(output: string)

  /** A call on one of the two devices, in the order the calls happen. */
  datatype Event = Get | Set(setting: Setting) | InputReset | BlockRead(size: nat)

  /** The calls made on the display and the serial port, in order. */
  class DeviceLog {
    var events: seq<Event>

    constructor ()
      ensures events == []
    {
      events := [];
    }
  }

  /** The display backlight, driven through xbacklight. */
  class Display {
    var current: Setting
    const log: DeviceLog

    constructor (initial: Setting, log: DeviceLog)
      ensures current == initial && this.log == log
    {
      current := initial;
      this.log := log;
    }

    /** getBacklight: reports the current setting. */
    method GetBacklight() returns (setting: Setting)
      modifies log
      ensures setting == current
      ensures log.events == old(log.events) + [Get]
    {
      setting := current;
      log.events := log.events + [Get];
    }

    /** setBacklight: changes the current setting. */
    method SetBacklight(setting: Setting)
      modifies this, log
      ensures current == setting
      ensures log.events == old(log.events) + [Set(setting)]
    {
      current := setting;
      log.events := log.events + [Set(setting)];
    }
  }

  /** The serial port the Arduino writes its photocell readings to. */
  class SerialPort {
    /** The block each of the next reads returns, in order. */
    var incoming: seq<Block>
    const log: DeviceLog

    constructor (blocks: seq<Block>, log: DeviceLog)
      ensures incoming == blocks && this.log == log
    {
      incoming := blocks;
      this.log := log;
    }

    /** reset_input_buffer: drops the backlog, so that the next read is fresh. */
    method ResetInputBuffer()
      modifies log
      ensures log.events == old(log.events) + [InputReset]
    {
      log.events := log.events + [InputReset];
    }

    /**
     * read(size): blocks until the next size bytes have arrived and returns
     * them. The port is modelled as delivering blocks of BlockSize bytes, so
     * only reads of that size are modelled.
     */
    method Read(size: nat) returns (block: Block)
      requires size == BlockSize && incoming != []
      modifies this, log
      ensures |block| == size
      ensures block == old(incoming[0]) && incoming == old(incoming[1..])
      ensures log.events == old(log.events) + [BlockRead(size)]
    {
      block := incoming[0];
      incoming := incoming[1..];
      log.events := log.events + [BlockRead(size)];
    }
  }

  /** The backlight target for one block: its median, mapped onto [0, 100]. */
  function TargetFor(block: Block): (target: real)
  {
    MapArduinoValue(Median(block), MinBacklight as real, MaxBacklight as real)
  }

  /** Every target lies in [MinBacklight, MaxBacklight]. */
  lemma TargetInRange(block: Block)
    ensures MinBacklight as real <= TargetFor(block) <= MaxBacklight as real
  {
    MedianBetweenMinAndMax(block);
    MapWithinRange(Median(block), MinBacklight as real, MaxBacklight as real);
  }

  /** The iteration at which the stop event is first seen set. */
  function FirstStop(stops: seq<bool>): (k: nat)
    requires true in stops
    ensures k < |stops| && stops[k]
    ensures forall i :: 0 <= i < k ==> !stops[i]
  {
    if stops[0] then 0 else 1 + FirstStop(stops[1..])
  }

  /**
   * The events of the iterations that act on their block, in order: a reset,
   * a read of BlockSize bytes and a set of the level that `level` computes
   * for the block read. The loop uses TargetFor as `level`; keeping it a
   * parameter lets the lemmas about the shape of the log ignore how a target
   * is computed.
   */
  function Iterations(blocks: seq<Block>, level: Block -> real): (r: seq<Event>)
  {
    if blocks == [] then []
    else
      var last := |blocks| - 1;
      Iterations(blocks[..last], level) + [InputReset, BlockRead(BlockSize), Set(Target(level(blocks[last])))]
  }

  /**
   * A run that acts on the first n blocks: the get, the n acting iterations,
   * then the reset and read of the iteration that sees the stop, and the
   * restoring set.
   */
  function Run(blocks: seq<Block>, n: nat, level: Block -> real, original: Setting): (r: seq<Event>)
    requires n <= |blocks|
  {
    [Get] + Iterations(blocks[..n], level) + [InputReset, BlockRead(BlockSize), Set(original)]
  }

  /** The device events of one run of the loop, given its inputs. */
  function RunTrace(blocks: seq<Block>, stops: seq<bool>, original: Setting): (r: seq<Event>)
    requires true in stops && FirstStop(stops) <= |blocks|
  {
    Run(blocks, FirstStop(stops), TargetFor, original)
  }

  /** adjustBacklightLoop. */
  method AdjustBacklightLoop(port: SerialPort, stops: seq<bool>, display: Display)
    requires port.log == display.log
    requires true in stops && FirstStop(stops) < |port.incoming|
    modifies port, display, display.log
    ensures display.log.events ==
      old(display.log.events) + RunTrace(old(port.incoming), stops, old(display.current))
    ensures display.current == old(display.current)
    ensures port.incoming == old(port.incoming)[FirstStop(stops) + 1..]
  {
    ghost var blocks := port.incoming;
    ghost var stop := FirstStop(stops);
    var log := display.log;
    var oldBacklight := display.GetBacklight();
    ghost var logBefore := log.events;
    var i := 0;
    while true
      invariant 0 <= i <= stop
      invariant port.incoming == blocks[i..]
      invariant log.events == logBefore + Iterations(blocks[..i], TargetFor)
      invariant oldBacklight == old(display.current)
      decreases |port.incoming|
    {
      port.ResetInputBuffer();
      var sensorValues := port.Read(BlockSize);
      if stops[i] {
        assert i == stop;
        assert port.incoming == blocks[stop + 1..];
        break;
      }
      assert i < stop;
      var median := Median(sensorValues);
      var backlight := MapArduinoValue(median, MinBacklight as real, MaxBacklight as real);
      display.SetBacklight(Target(backlight));
      IterationsExtend(blocks, i, TargetFor);
      AppendThree(logBefore, Iterations(blocks[..i], TargetFor),
        InputReset, BlockRead(BlockSize), Set(Target(backlight)));
      i := i + 1;
    }
    display.SetBacklight(oldBacklight);
    ghost var acting := Iterations(blocks[..stop], TargetFor);
    AppendRun(old(log.events), Get, acting, InputReset, BlockRead(BlockSize), Set(oldBacklight));
  }

  lemma AppendThree<T>(a: seq<T>, p: seq<T>, x: T, y: T, z: T)
    ensures a + p + [x] + [y] + [z] == a + (p + [x, y, z])
  {
  }

  lemma AppendRun<T>(a: seq<T>, g: T, p: seq<T>, x: T, y: T, z: T)
    ensures a + [g] + p + [x] + [y] + [z] == a + ([g] + p + [x, y, z])
  {
  }

  /** Acting on one more block appends its iteration. */
  lemma IterationsExtend(blocks: seq<Block>, i: nat, level: Block -> real)
    requires i < |blocks|
    ensures Iterations(blocks[..i + 1], level) ==
      Iterations(blocks[..i], level) + [InputReset, BlockRead(BlockSize), Set(Target(level(blocks[i])))]
  {
    assert blocks[..i + 1][..i] == blocks[..i];
  }

  /**
   * Each acting iteration is three events, and the k-th is a reset, a read
   * of BlockSize bytes and the set of the level of the k-th block.
   */
  lemma {:induction false} IterationsAt(blocks: seq<Block>, level: Block -> real)
    ensures |Iterations(blocks, level)| == 3 * |blocks|
    ensures forall k :: 0 <= k < |blocks| ==>
      Iterations(blocks, level)[3 * k] == InputReset &&
      Iterations(blocks, level)[3 * k + 1] == BlockRead(BlockSize) &&
      Iterations(blocks, level)[3 * k + 2] == Set(Target(level(blocks[k])))
  {
    if blocks != [] {
      var last := |blocks| - 1;
      IterationsAt(blocks[..last], level);
    }
  }

  /** A run that acts on n blocks, event by event. */
  lemma RunShape(blocks: seq<Block>, n: nat, level: Block -> real, original: Setting)
    requires n <= |blocks|
    ensures |Run(blocks, n, level, original)| == 3 * n + 4
    ensures Run(blocks, n, level, original)[0] == Get
    ensures forall k :: 0 <= k < n ==>
      Run(blocks, n, level, original)[3 * k + 1] == InputReset &&
      Run(blocks, n, level, original)[3 * k + 2] == BlockRead(BlockSize) &&
      Run(blocks, n, level, original)[3 * k + 3] == Set(Target(level(blocks[k])))
    ensures Run(blocks, n, level, original)[3 * n + 1] == InputReset
    ensures Run(blocks, n, level, original)[3 * n + 2] == BlockRead(BlockSize)
    ensures Run(blocks, n, level, original)[3 * n + 3] == Set(original)
  {
    var acting := Iterations(blocks[..n], level);
    IterationsAt(blocks[..n], level);
    assert Run(blocks, n, level, original) == [Get] + acting + [InputReset, BlockRead(BlockSize), Set(original)];
  }

  /**
   * The shape of a run: the get first; then, for each block k read before
   * the stop, a reset, a read of 200 bytes and the set of that block's
   * mapped median; then the reset and read of the iteration that sees the
   * stop; and last the restoring set of the captured value.
   */
  lemma RunTraceShape(blocks: seq<Block>, stops: seq<bool>, original: Setting)
    requires true in stops && FirstStop(stops) <= |blocks|
    ensures |RunTrace(blocks, stops, original)| == 3 * FirstStop(stops) + 4
    ensures RunTrace(blocks, stops, original)[0] == Get
    ensures forall k :: 0 <= k < FirstStop(stops) ==>
      RunTrace(blocks, stops, original)[3 * k + 1] == InputReset &&
      RunTrace(blocks, stops, original)[3 * k + 2] == BlockRead(BlockSize) &&
      RunTrace(blocks, stops, original)[3 * k + 3] == Set(Target(TargetFor(blocks[k])))
    ensures RunTrace(blocks, stops, original)[3 * FirstStop(stops) + 1] == InputReset
    ensures RunTrace(blocks, stops, original)[3 * FirstStop(stops) + 2] == BlockRead(BlockSize)
    ensures RunTrace(blocks, stops, original)[3 * FirstStop(stops) + 3] == Set(original)
  {
    RunShape(blocks, FirstStop(stops), TargetFor, original);
  }

  /**
   * The backlight is read exactly once, before the first reset and read of
   * the serial port, and never again.
   */
  lemma ReadOnce(blocks: seq<Block>, n: nat, level: Block -> real, original: Setting)
    requires n <= |blocks|
    ensures |Run(blocks, n, level, original)| > 1
    ensures Run(blocks, n, level, original)[0] == Get
    ensures Run(blocks, n, level, original)[1] == InputReset
    ensures forall j :: 0 < j < |Run(blocks, n, level, original)| ==>
      !Run(blocks, n, level, original)[j].Get?
  {
    var trace := Run(blocks, n, level, original);
    RunShape(blocks, n, level, original);
    if n > 0 {
      assert trace[3 * 0 + 1] == InputReset;
    }
    forall j | 0 < j < |trace|
      ensures !trace[j].Get?
    {
      var k := (j - 1) / 3;
      if k < n {
        assert j == 3 * k + 1 || j == 3 * k + 2 || j == 3 * k + 3;
      } else {
        assert j == 3 * n + 1 || j == 3 * n + 2 || j == 3 * n + 3;
      }
    }
  }

  /** Every read is of BlockSize bytes and comes right after a reset of the input buffer. */
  lemma ResetBeforeEveryRead(blocks: seq<Block>, n: nat, level: Block -> real, original: Setting)
    requires n <= |blocks|
    ensures forall j :: (0 <= j < |Run(blocks, n, level, original)| &&
      Run(blocks, n, level, original)[j].BlockRead?) ==>
        0 < j && Run(blocks, n, level, original)[j - 1] == InputReset &&
        Run(blocks, n, level, original)[j].size == BlockSize
  {
    var trace := Run(blocks, n, level, original);
    RunShape(blocks, n, level, original);
    forall j | 0 <= j < |trace| && trace[j].BlockRead?
      ensures 0 < j && trace[j - 1] == InputReset && trace[j].size == BlockSize
    {
      if j == 0 {
        assert false;
      } else {
        var k := (j - 1) / 3;
        if k < n {
          assert j == 3 * k + 1 || j == 3 * k + 2 || j == 3 * k + 3;
          assert j == 3 * k + 2;
        } else {
          assert j == 3 * n + 1 || j == 3 * n + 2 || j == 3 * n + 3;
          assert j == 3 * n + 2;
        }
      }
    }
  }

  /**
   * Nothing is set after the read that sees the stop except the restoration:
   * exactly one event follows that read, the set of the captured value.
   */
  lemma OnlyRestoreAfterStop(blocks: seq<Block>, n: nat, level: Block -> real, original: Setting)
    requires n <= |blocks|
    ensures |Run(blocks, n, level, original)| == 3 * n + 4
    ensures Run(blocks, n, level, original)[3 * n + 2] == BlockRead(BlockSize)
    ensures forall j :: 3 * n + 2 < j < |Run(blocks, n, level, original)| ==>
      j == |Run(blocks, n, level, original)| - 1 &&
      Run(blocks, n, level, original)[j] == Set(original)
  {
    RunShape(blocks, n, level, original);
  }

  /**
   * Restoration happens exactly once: the value xbacklight reported before
   * the loop, which is text, is set exactly once.
   */
  lemma RestoredOnce(blocks: seq<Block>, n: nat, level: Block -> real, output: string)
    requires n <= |blocks|
    ensures multiset(Run(blocks, n, level, Reported(output)))[Set(Reported(output))] == 1
  {
    var acting := Iterations(blocks[..n], level);
    NoReportedSet(blocks[..n], level, output);
    assert Run(blocks, n, level, Reported(output)) ==
      [Get] + acting + [InputReset, BlockRead(BlockSize), Set(Reported(output))];
  }

  /** The acting iterations only set computed targets, never reported text. */
  lemma {:induction false} NoReportedSet(blocks: seq<Block>, level: Block -> real, output: string)
    ensures Set(Reported(output)) !in Iterations(blocks, level)
  {
    if blocks != [] {
      NoReportedSet(blocks[..|blocks| - 1], level, output);
    }
  }

  /**
   * When the level of every acted-on block lies in [lo, hi], so does every
   * set before the restoration.
   */
  lemma SetsWithin(blocks: seq<Block>, n: nat, level: Block -> real, original: Setting, lo: real, hi: real)
    requires n <= |blocks|
    requires forall k :: 0 <= k < n ==> lo <= level(blocks[k]) <= hi
    ensures forall j :: (0 <= j < |Run(blocks, n, level, original)| - 1 &&
      Run(blocks, n, level, original)[j].Set?) ==>
        Run(blocks, n, level, original)[j].setting.Target? &&
        lo <= Run(blocks, n, level, original)[j].setting.level <= hi
  {
    var trace := Run(blocks, n, level, original);
    RunShape(blocks, n, level, original);
    forall j | 0 <= j < |trace| - 1 && trace[j].Set?
      ensures trace[j].setting.Target? && lo <= trace[j].setting.level <= hi
    {
      var k := (j - 1) / 3;
      if j == 0 {
        assert false;
      } else if k < n {
        assert j == 3 * k + 1 || j == 3 * k + 2 || j == 3 * k + 3;
        assert j == 3 * k + 3;
      } else {
        assert false;
      }
    }
  }

  /** Every set before the restoration is of a target in [0, 100]. */
  lemma SetsInRange(blocks: seq<Block>, stops: seq<bool>, original: Setting)
    requires true in stops && FirstStop(stops) <= |blocks|
    ensures forall j :: (0 <= j < |RunTrace(blocks, stops, original)| - 1 &&
      RunTrace(blocks, stops, original)[j].Set?) ==>
        RunTrace(blocks, stops, original)[j].setting.Target? &&
        MinBacklight as real <= RunTrace(blocks, stops, original)[j].setting.level <= MaxBacklight as real
  {
    var n := FirstStop(stops);
    forall k | 0 <= k < n
      ensures MinBacklight as real <= TargetFor(blocks[k]) <= MaxBacklight as real
    {
      TargetInRange(blocks[k]);
    }
    SetsWithin(blocks, n, TargetFor, original, MinBacklight as real, MaxBacklight as real);
  }

  /**
   * No block read at or after the stop is acted on: the log does not depend
   * on the block read in the iteration that saw the stop, nor on any later.
   */
  lemma StopBlockIgnored(blocks: seq<Block>, other: seq<Block>, stops: seq<bool>, original: Setting)
    requires true in stops && FirstStop(stops) <= |blocks| && FirstStop(stops) <= |other|
    requires blocks[..FirstStop(stops)] == other[..FirstStop(stops)]
    ensures RunTrace(blocks, stops, original) == RunTrace(other, stops, original)
  {
  }

  /**
   * A stop seen right after the first read: the get, that reset and read,
   * and the restoring set of the value captured before the loop.
   */
  lemma StopAfterFirstRead(blocks: seq<Block>, stops: seq<bool>, original: Setting)
    requires |stops| > 0 && stops[0]
    ensures RunTrace(blocks, stops, original) == [Get, InputReset, BlockRead(BlockSize), Set(original)]
  {
  }

  /** A block of 199 dark readings and one bright spike: the spike is rejected. */
  lemma SpikeRejected()
    ensures |Repeat(0, 199) + [255]| == BlockSize
    ensures Median(Repeat(0, 199) + [255]) == 0.0
    ensures TargetFor(Repeat(0, 199) + [255]) == MinBacklight as real
  {
    var block := Repeat(0, 199) + [255];
    RepeatCount(0, 199);
    assert multiset(block)[0] == 199;
    MedianOfMajority(block, 0);
  }

  /** A block of all-bright readings drives the backlight to its maximum. */
  lemma FullBrightness()
    ensures Median(Repeat(255, BlockSize)) == 255.0
    ensures TargetFor(Repeat(255, BlockSize)) == MaxBacklight as real
  {
    RepeatCount(255, BlockSize);
    MedianOfMajority(Repeat(255, BlockSize), 255);
  }
}
