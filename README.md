# Arduino adaptive brightness: verified model of the sampling-and-actuation loop

The program reads an ambient-light level from an Arduino photocell over a serial
port. It drives the display backlight with `xbacklight` to match that level.
Each iteration of its loop does five things:

- reset the serial input buffer;
- read a block of 200 sensor bytes;
- stop if the stop event is set;
- otherwise take the median of the block and map it from the byte range
  [0, 255] onto the backlight range [0, 100];
- set the backlight to the result.

When the loop stops, it sets the backlight back to the value it read at the
start.

This project models that loop in three modules:

- `RangeMapping` (`range_mapping.dfy`): `byteToRatio` and `mapArduinoValue`, as
  functions over exact reals. Lemmas cover the boundary values, bounds, order
  and round trips through the inverse interpolation.
- `Aggregation` (`aggregation.dfy`): the median of a block, which `numpy.median`
  computes. It is defined through an insertion sort, `Sort`, whose result is
  proved sorted and a permutation of its input. The median lemmas cover the
  odd/even characterisation, independence from order, the min/max bounds and
  outlier rejection (a strict majority value is the median).
- `BacklightLoop` (`backlight_loop.dfy`): `adjustBacklightLoop` as a method with
  a `while` loop over two classes that share one `DeviceLog`.
  - `Display` stands for the backlight driven through `xbacklight`. It holds
    the current setting.
  - `SerialPort` hands out a given sequence of 200-byte blocks.
  - Every get and set on the display and every reset and read on the port is
    appended to the shared log. The log therefore records how the calls on
    the two devices interleave.
  - The stop event is the sequence of values its check returns, one per
    iteration.
  - The method's postcondition states that the events it appends are
    `RunTrace` of its inputs. `RunTrace` is `Run` with the loop's target
    computation, where:
    - `Run` is the get, then one reset/read/set triple per block acted on,
      then the reset and read of the iteration that sees the stop, then the
      restoring set;
    - the target computation is the median of the block mapped onto [0, 100].
  - Lemmas about `Run` and `RunTrace` prove the promised guarantees:
    - the backlight is read exactly once, before the first reset and read;
    - every read is a read of 200 bytes right after a reset;
    - every block read before the stop produces exactly one set, of its
      mapped median, and that set comes before the next read;
    - every such set lies in [0, 100];
    - no block read at or after the stop is acted on;
    - after the read that sees the stop, the only event is the restoration
      of the captured value, which happens exactly once.

Python floats are modelled as exact reals. `MIN_BACKLIGHT`/`MAX_BACKLIGHT` are
the constants `MinBacklight` = 0 and `MaxBacklight` = 100. A sensor byte (`ord`
of a character read) is `Byte`, an integer in [0, 255].

## Model

| member | source | states |
|---|---|---|
| RangeMapping.ByteToRatio | src/main.py:87-90 | the ratio times 255 is the byte value; 0 maps to 0 and 255 to 1; every value in [0, 255] gives a ratio in [0, 1] |
| RangeMapping.MapArduinoValue | src/main.py:93-107 | a reading of 0 lands exactly on newMin and a reading of 255 exactly on newMax |
| RangeMapping.MapWithinRange | src/main.py:103-107 | every reading in [0, 255] lands between newMin and newMax, for an increasing and for a reversed output range |
| RangeMapping.MapOrderPreserving | src/main.py:103-107 | for readings a <= b in [0, 255] and newMin <= newMax: newMin <= map(a) <= map(b) <= newMax |
| RangeMapping.MapOrderReversing | src/main.py:103-107 | with newMax <= newMin the mapping reverses the order of readings |
| RangeMapping.UnmapMap | src/main.py:93-107 | for a non-degenerate output range, the inverse interpolation recovers the reading from its mapped value |
| RangeMapping.MapUnmap | src/main.py:93-107 | for a non-degenerate output range every output value is the image of the reading the inverse gives, so the mapping is onto |
| Aggregation.Insert | src/main.py:130 | inserting into a sorted sequence gives a sorted sequence one longer with the same elements plus the new one |
| Aggregation.Sort | src/main.py:130 | the sort that the median is taken over is sorted, has the input's length and is a permutation of the input |
| Aggregation.SortedUnique | src/main.py:130 | two sorted sequences with the same elements are equal, so the sorted order the median reads from is unique |
| Aggregation.Median | src/main.py:130 | numpy.median of a non-empty block; its contract is carried by MedianOfSorted, MedianOfAnySortedArrangement, MedianIgnoresOrder and MedianBetweenMinAndMax |
| Aggregation.MedianOfSorted | src/main.py:130 | for a sorted block the median is the middle element (odd length) or the mean of the two middle elements (even length) |
| Aggregation.MedianOfAnySortedArrangement | src/main.py:130 | for any sorted permutation of the block, the median is its middle element (odd length) or the mean of its two middle elements (even length) |
| Aggregation.MedianIgnoresOrder | src/main.py:129-130 | two blocks with the same readings in any order have the same median |
| Aggregation.MedianBetweenMinAndMax | src/main.py:129-130 | the median of a non-empty block lies between its smallest and its largest reading |
| Aggregation.MedianOfMajority | src/main.py:129-130 | a value held by strictly more than half of the block is its median, whatever the other readings are |
| BacklightLoop.Display.GetBacklight | src/main.py:81-84 | reports the current setting, changes nothing on the display and appends one get to the device log |
| BacklightLoop.Display.SetBacklight | src/main.py:72-78 | makes the given setting current and appends one set of it to the device log |
| BacklightLoop.SerialPort.ResetInputBuffer | src/main.py:124 | appends a reset to the device log and leaves the blocks still to be read unchanged |
| BacklightLoop.SerialPort.Read | src/main.py:125 | returns the next block, of the requested 200 bytes, removes it from the blocks still to arrive and appends one read of that size to the device log |
| BacklightLoop.TargetFor | src/main.py:130-132 | the backlight target for a block, mapArduinoValue(median, MIN_BACKLIGHT, MAX_BACKLIGHT); its contract is carried by TargetInRange, SpikeRejected and FullBrightness |
| BacklightLoop.TargetInRange | src/main.py:129-132 | the mapped median of every block lies in [MIN_BACKLIGHT, MAX_BACKLIGHT] = [0, 100] |
| BacklightLoop.FirstStop | src/main.py:126-127 | the iteration at which the stop event is first seen: set there and clear at every earlier check |
| BacklightLoop.AdjustBacklightLoop | src/main.py:110-136 | the events appended to the shared device log, in order, are RunTrace of the blocks the port delivers, the stop checks and the setting before the run; the backlight ends as it was; exactly the blocks up to and including the stopping read are consumed |
| BacklightLoop.IterationsAt | src/main.py:123-133 | each acting iteration is three events in order: a reset, a read of 200 bytes and the set of the level computed for its block; the k-th iteration is for the k-th block |
| BacklightLoop.RunShape | src/main.py:122-136 | a run acting on n blocks is 3n + 4 events: the get; a reset, a read and the set of block k's level for each k < n; then the reset and read of the stopping iteration; then the restoring set |
| BacklightLoop.RunTraceShape | src/main.py:122-136 | the loop's log: the get; for each block k before the stop a reset, a read of 200 bytes and set(mapArduinoValue(median(block k), 0, 100)); the stopping reset and read; the set of the captured value last |
| BacklightLoop.ReadOnce | src/main.py:122-123 | the backlight is read at the first event, before the first reset and read of the port, and at no later event |
| BacklightLoop.ResetBeforeEveryRead | src/main.py:124-125 | every read in a run is a read of 200 bytes and comes immediately after a reset of the input buffer |
| BacklightLoop.OnlyRestoreAfterStop | src/main.py:125-136 | after the read that sees the stop exactly one event follows: the set of the captured value, so no sensor value from that read or later is ever set |
| BacklightLoop.RestoredOnce | src/main.py:135-136 | the text xbacklight reported before the loop is set exactly once in the run |
| BacklightLoop.NoReportedSet | src/main.py:129-133 | the acting iterations only ever set computed targets, never the reported text |
| BacklightLoop.SetsWithin | src/main.py:129-136 | when every acted-on block's level lies in [lo, hi], every set before the restoration is of a target in [lo, hi] |
| BacklightLoop.SetsInRange | src/main.py:129-136 | every set before the restoration in the loop's log is of a target in [0, 100] |
| BacklightLoop.StopBlockIgnored | src/main.py:125-127 | the log does not depend on the block read in the iteration that sees the stop, nor on any later block |
| BacklightLoop.StopAfterFirstRead | src/main.py:122-136 | if the stop is seen right after the first read, the log is the get, that reset and read, and the restoring set of the captured value |
| BacklightLoop.SpikeRejected | src/main.py:125-132 | a 200-byte block of 199 zeros and one 255 has median 0 and gives target MIN_BACKLIGHT = 0 |
| BacklightLoop.FullBrightness | src/main.py:125-132 | a block of 200 bytes of 255 has median 255 and gives target MAX_BACKLIGHT = 100 |

## Left out

- `main` is not modelled (src/main.py:18-36). This covers the thread and event setup, `raw_input`, `join` and `port.close`. The stop event is modelled as the sequence of values its check returns, not as a concurrent flag.
- `parseArgs` and `initSerial` are not modelled (src/main.py:39-63). They only call argparse, enumerate ports and construct `serial.Serial`, all library calls.
- `executeCommand` is not modelled (src/main.py:66-69). `setBacklight` and `getBacklight` are modelled by their effect on a `Display` object, not by the shell commands they run.
- `getBacklight` returns the raw output of `xbacklight -get`, unparsed, and `setBacklight` formats its argument with `str`. The model keeps that text as an opaque `Reported` setting and gives computed targets as exact `Target` levels. `str` formatting of a float is not modelled.
- `logging` calls are not modelled; they are diagnostics with no effect on the trace.
- IEEE floating-point rounding in `byteValue / 255.0`, in `numpy.median` and in the interpolation is not modelled; exact reals are used.
- BacklightLoop.SerialPort.Read: only reads of 200 bytes are modelled. The port delivers whole 200-byte blocks, so `read(size)` for another size, which pyserial allows, is not modelled; the loop only ever reads 200.
- Short reads are not modelled. The serial port is opened without a timeout, so `read(200)` waits for 200 bytes. Every block is modelled as exactly 200 bytes. That rules out the empty-block median (NaN in numpy), so it is out of scope.
- The port's backlog and timing are not modelled. `reset_input_buffer` only records that it happened: the blocks are those that arrive after each reset.
- Runs that never stop are not modelled. `AdjustBacklightLoop` requires the stop event to be seen set at some check, and the port to have a block for every read up to and including that check.
- BacklightLoop.AdjustBacklightLoop: exceptions are not modelled. The source has no `try`/`except`, so a failing `xbacklight` call or a serial error ends the thread, and the backlight is not restored. A design where a failed set is skipped and the loop continues sampling is not what the code does. The model follows the code: it has no continue-on-failure path, and it covers only runs in which every call succeeds.
- RangeMapping.UnmapMap and RangeMapping.MapUnmap: these need newMin != newMax, because the inverse interpolation is undefined for equal ends. `mapArduinoValue` is only called with 0 and 100; the inverse is a proof device and is not in the source.
