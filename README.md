# IR turret: event queue and motion primitives

This project models the two stateful components of the IR-remote turret
sketch (`sketches/IR_Turret_Custom`) and proves properties about them in
Dafny.

* **`EventQueue`** (`event_queue.dfy`) models `RingQueue<T, SIZE>`. This is a
  fixed-capacity circular FIFO over an array. `head` is the write index,
  `tail` is the read index and `count` is the number of stored items. The
  class `RingQueue` keeps the same array and the same three indices. A ghost
  sequence `Contents` holds the abstract FIFO. `Valid()` is the
  representation invariant:
  * the indices are in range;
  * `head == (tail + count) % size`;
  * the i-th queued item sits in slot `(tail + i) % size`.

  Every method keeps this invariant. `Push`, `Pop` and `Run` give the same
  queue on plain sequences. Properties that span many calls (FIFO order, the
  capacity bound, refusal only when full) are proved about them, and the
  class methods are proved to follow `Push` and `Pop`.
* **`MotionControl`** (`motion_control.dfy`) models the `Turret` class. Its
  only real state is the tracked pitch `pitchVal`. The calibration speeds
  and the pitch bounds are set once by the constructor's initializer list
  and never change, so they are a `const` `Calibration` value (`Factory`:
  yaw stop 90, yaw move 90, pitch step 8, roll stop 90, roll move 90, pitch
  bounds 33 to 150). Every servo write and every `delay` is recorded, in
  order, in a ghost trace `effects`. `Step` gives the meaning of one
  primitive on (pitch, trace), and `Run` folds it over a sequence of calls.
  Each method of the class is proved to do exactly what `Step` says. The
  safety and saturation properties are lemmas about `Step` and `Run`.
  The default durations of the primitives are the methods' default
  parameter values: left and right 150 ms, up and down 50 ms, fireOne
  158 ms, fireAll 948 ms.

The two pitch policies of the source are kept apart:
* `up` and `down` refuse a step unless the result is strictly inside the
  bounds.
* `setPitchDeg` saturates to the nearest bound.

## Model

| member | source | states |
|---|---|---|
| `EventQueue.RingQueue.constructor` | sketches/IR_Turret_Custom/RingQueue.h:33-34 | A new queue has head, tail and count all 0, holds nothing, and satisfies the representation invariant (capacity must be positive) |
| `EventQueue.RingQueue.Enqueue` | sketches/IR_Turret_Custom/RingQueue.h:37-45 | Succeeds iff count < size. On success the item is stored at the old head, head advances modulo size, count grows by one and the contents become old + [item]. On a full queue the array, head, tail and count are all unchanged. The invariant is kept |
| `EventQueue.RingQueue.Dequeue` | sketches/IR_Turret_Custom/RingQueue.h:48-53 | Given count > 0, returns the slot at tail, which is the front of the contents. Tail advances modulo size, count drops by one, the contents lose their front item and the invariant is kept |
| `EventQueue.RingQueue.IsEmpty` | sketches/IR_Turret_Custom/RingQueue.h:56-58 | True exactly when the abstract contents are empty |
| `EventQueue.RingQueue.IsFull` | sketches/IR_Turret_Custom/RingQueue.h:61-63 | True exactly when the queue holds `size` items |
| `EventQueue.RingQueue.GetCount` | sketches/IR_Turret_Custom/RingQueue.h:66-68 | The number of queued items, never above capacity |
| `EventQueue.RingQueue.Peek` | sketches/IR_Turret_Custom/RingQueue.h:71-73 | On a non-empty queue, the item the next Dequeue returns; it changes nothing |
| `EventQueue.RingQueue.Clear` | sketches/IR_Turret_Custom/RingQueue.h:76-80 | Empties the queue with head = tail = count = 0, keeps the invariant, and leaves the array untouched |
| `EventQueue.Push` | sketches/IR_Turret_Custom/RingQueue.h:37-45 | Acceptance iff there is room. An accepted item is appended at the back, and a refused offer leaves the queue as it was. The capacity is never exceeded, and the existing entries stay unchanged and in order |
| `EventQueue.Pop` | sketches/IR_Turret_Custom/RingQueue.h:48-53 | The front item followed by the rest is the queue before |
| `EventQueue.RunIsFifo` | sketches/IR_Turret_Custom/RingQueue.h:37-53 | For any sequence of calls, the queue before plus every accepted item equals the dequeued items plus the queue after |
| `EventQueue.FifoFromEmpty` | sketches/IR_Turret_Custom/RingQueue.h:6-18 | Starting empty, the dequeued items are exactly a prefix of the accepted items, in the same order, and the queue holds the rest |
| `EventQueue.RunWithinCapacity` | sketches/IR_Turret_Custom/RingQueue.h:37-45 | No sequence of calls makes the queue hold more than its capacity |
| `EventQueue.RunRefusesNothingWithRoom` | sketches/IR_Turret_Custom/RingQueue.h:38-40 | An item is refused only for lack of room: with room for every offer, nothing is refused |
| `EventQueue.CapacityFourScenario` | sketches/IR_Turret_Custom/RingQueue.h:11-18 | With capacity 4, enqueueing A to E accepts A to D and refuses E. Peek agrees with Dequeue, and the items come out as A, B, C, D |
| `MotionControl.Turret.constructor` | sketches/IR_Turret_Custom/Turret.cpp:3-9 | Stores the three pins. The calibration is the factory one (speeds 90, step 8, bounds 33 and 150), pitch is 100 (so within bounds) and no effects have been issued |
| `MotionControl.Turret.Left` | sketches/IR_Turret_Custom/Turret.cpp:20-27 | Pitch is unchanged. It appends yaw stop+move, a delay of the duration, then yaw stop (yaw 180 then 90) |
| `MotionControl.Turret.Right` | sketches/IR_Turret_Custom/Turret.cpp:29-36 | Pitch is unchanged. It appends yaw stop−move, a delay of the duration, then yaw stop (yaw 0 then 90) |
| `MotionControl.Turret.Up` | sketches/IR_Turret_Custom/Turret.cpp:38-47 | Follows `Step` for an up step: the step is taken, the new pitch written and the delay issued only when pitch + step < max. Safety is preserved |
| `MotionControl.Turret.Down` | sketches/IR_Turret_Custom/Turret.cpp:49-58 | Follows `Step` for a down step: the step is taken only when pitch − step > min, and otherwise nothing happens. Safety is preserved |
| `MotionControl.Turret.FireOne` | sketches/IR_Turret_Custom/Turret.cpp:60-67 | Pitch is unchanged. It appends roll 180, a delay of the duration, then roll 90 |
| `MotionControl.Turret.FireAll` | sketches/IR_Turret_Custom/Turret.cpp:69-76 | The same effects as FireOne for the same duration (only the default differs) |
| `MotionControl.Turret.Home` | sketches/IR_Turret_Custom/Turret.cpp:78-88 | Whatever the state before, pitch becomes 100 and is safe. The effects are yaw stop, a 20 ms delay, roll stop, a 100 ms delay, pitch 100, a 100 ms delay |
| `MotionControl.Turret.SetPitchDeg` | sketches/IR_Turret_Custom/Turret.cpp:90-95 | Pitch becomes the angle saturated to the bounds, that value is written to the pitch servo, and the turret is safe afterwards from any state |
| `MotionControl.Turret.GetPitchDeg` | sketches/IR_Turret_Custom/Turret.cpp:97-99 | Returns the tracked pitch, reads only, and the result is within bounds whenever the turret is safe |
| `MotionControl.Clamp` | sketches/IR_Turret_Custom/Turret.cpp:90-94 | The result is always within bounds. An in-bounds angle is kept. Below the minimum gives the minimum and above the maximum gives the maximum (saturation, not rejection) |
| `MotionControl.Step` | sketches/IR_Turret_Custom/Turret.cpp:20-95 | Yaw and fire primitives never change pitch. From a safe pitch every primitive leaves pitch safe |
| `MotionControl.PitchStepWholeOrNothing` | sketches/IR_Turret_Custom/Turret.cpp:42-57 | An up or down step is either taken in full and stays strictly inside the bounds, or refused with pitch unchanged and nothing written. It is never clamped to the bound |
| `MotionControl.RunKeepsPitchInBounds` | sketches/IR_Turret_Custom/Turret.h:12 | From a safe pitch, every sequence of primitives keeps pitch within [min, max] |
| `MotionControl.RunWritesOnlySafePitch` | sketches/IR_Turret_Custom/Turret.cpp:38-95 | From a safe pitch, no sequence of primitives ever writes an out-of-bounds angle to the pitch servo |
| `MotionControl.RepeatedUpSaturates` | sketches/IR_Turret_Custom/Turret.cpp:42-46 | n up steps from any p ≤ 150 give p + 8·min(n, max(0, (149 − p) / 8)): climbing stops below 150, and from 150 every step is refused |
| `MotionControl.RepeatedDownSaturates` | sketches/IR_Turret_Custom/Turret.cpp:53-57 | n down steps from any p ≥ 33 give p − 8·min(n, max(0, (p − 34) / 8)): descending stops above 33, and from 33 every step is refused |
| `MotionControl.UpAndDownFromHome` | sketches/IR_Turret_Custom/Turret.cpp:42-57 | From 100, six or more ups leave 148 (the step to 156 is refused), and eight or more downs leave 36 |
| `MotionControl.UpThenDownReturns` | sketches/IR_Turret_Custom/Turret.cpp:38-58 | An accepted up followed by a down from above the minimum returns to the starting pitch |
| `MotionControl.SetPitchIdempotent` | sketches/IR_Turret_Custom/Turret.cpp:90-95 | Setting the same angle twice leaves the same pitch and issues the same write as setting it once |
| `MotionControl.PulseEndsStopped` | sketches/IR_Turret_Custom/Turret.cpp:20-36 | A yaw or roll pulse last writes its stop speed to its own axis and writes no other axis |
| `MotionControl.HomeEndsStopped` | sketches/IR_Turret_Custom/Turret.cpp:78-88 | Home last tells yaw and roll to stop |
| `MotionControl.StepLeavesYawAndRollStopped` | sketches/IR_Turret_Custom/Turret.cpp:20-95 | After any one primitive, yaw and roll were last told to stop, or were not written at all |
| `MotionControl.RunLeavesYawAndRollStopped` | sketches/IR_Turret_Custom/Turret.cpp:20-95 | After any sequence of primitives, the continuous-rotation yaw and roll servos were last told to stop, or were never written |
| `MotionControl.FireAllIsLongFireOne` | sketches/IR_Turret_Custom/Turret.h:30-32 | fireAll has exactly fireOne's effects for the same duration, and its default delay is six default fireOne delays (948 = 6 × 158) |
| `MotionControl.FactoryPrimitiveEffects` | sketches/IR_Turret_Custom/Turret.cpp:20-88 | With the factory calibration, the exact write sequences are: left yaw 180 then 90; right yaw 0 then 90; both fires roll 180 then 90; home yaw 90, roll 90, pitch 100 |
| `MotionControl.HomeForgetsPriorPitch` | sketches/IR_Turret_Custom/Turret.cpp:78-88 | Home's outcome does not depend on the prior pitch, and the pitch ends at 100 |
| `MotionControl.SevenUpsScenario` | sketches/IR_Turret_Custom/Turret.cpp:38-47 | A new turret that is sent seven default up calls ends at pitch 148. The seventh call is refused and issues nothing |

## Left out

- IRSensor.h / IRSensor.cpp, PirSensor.h / PirSensor.cpp and Sonar.h / Sonar.cpp are not part of this model. They wrap hardware I/O (the IRremote library, `digitalRead`, `pulseIn` timing and a floating-point conversion).
- `Turret::begin` is not modelled (it attaches the servos, which is hardware setup, then calls `home`). Serial printing is not modelled either.
- `Turret::logStatus` is not modelled. It prints `yawVal` and `rollVal`, which no constructor or method ever assigns, so those two fields are left out as well.
- `delay` is recorded as a `Delay(ms)` trace entry. Wall-clock time and blocking are not modelled.
- The conversion of a negative `int` duration to `delay`'s unsigned parameter is not modelled: the entry records the `int` as passed.
- `Servo::write` is recorded as a `ServoWrite(axis, value)` trace entry with the value passed. The Servo library's own handling of that value (angle limiting, microsecond mode) is not visible and not modelled.
- Integer widths are not modelled. Pitch stays within [33, 150], so `pitchVal ± 8` cannot overflow a 16-bit `int`. Under the invariant, `head` and `tail` stay below `SIZE` and `count` stays at most `SIZE`, so `size_t` arithmetic never wraps.
- The one `size_t` wrap the source allows is `count--` on an empty queue. It is excluded by `Dequeue`'s precondition, as the usage comment requires of callers.
- The template argument `SIZE` becomes a constructor argument and must be positive. A zero-length `buffer[SIZE]` and `% 0` are not meaningful C++.
- The element type needs a default value (`T(0)`), just as the C++ array default-initialises its slots.
- Command arbitration, the code-to-command table and the control loop that drains the queue are not implemented in the source files of the core, so they are not modelled. `MotionControl.Primitive` only names the primitive calls so that sequences of them can be reasoned about.
- The class's doc comment calls the primitives non-blocking (Turret.h:14), but the code blocks in `delay`. The model follows the code and records the delays.
- The code keeps no yaw or roll running state. "Stopped" is derived from the last write to each axis (`LastWrite`).
