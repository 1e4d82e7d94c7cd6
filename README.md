# Snowflake id generator, modelled in Dafny

This project models `SnowflakeIdGenerator` from `src/index.ts`. That class
builds 64-bit "Snowflake" ids from three parts: the milliseconds elapsed
since an epoch, a machine id, and a wrapping counter. The model covers
the whole class:

- **Option resolution in the constructor.** A missing option or a zero
  option takes its default: 64 total bits, 41 timestamp bits, 10 machine
  bits, the epoch 2020-01-01T00:00:00Z (1577836800000 ms), and a random
  machine id. The counter width is derived as
  `totalBits - epochBits - machineBits`, with no validation.
- **The `incrementId` getter.** It advances the mutable `index` modulo
  `2n ** incrementBits` and returns the stored value.
- **`next()`.** It ORs together the elapsed time, the machine id and the
  fresh counter value, each shifted by the amount the class uses.
- **The static default instance.** `set` replaces it. The static `next`
  creates it on first use.

Files:

- `bigints.dfy` (module `BigInts`) models the `bigint` operations the class
  uses. These are `2n ** n`, `<<` (a negative amount shifts right, rounding
  down), `%` (truncating), and `|` on unbounded two's complement integers.
  Dafny has no `|` on `int`, so `Or` is defined recursively. It is then
  characterised bit by bit (`OrTestBit`), and the algebra the proofs need is
  derived from that.
- `snowflake.dfy` (module `Snowflake`) holds the rest:
  - the option datatypes and the resolution functions;
  - the counter as functions (`Advance`, `ReadIncrementId`, `IndexAfter`) and
    lemmas;
  - the packing (`Pack`, `Mint`);
  - the class `SnowflakeIdGenerator`. Its widths, epoch and machine id are
    `const` fields fixed by the constructor. `index` is its only `var`.
  - the class `Registry`, which stands for the class-level `instance` field.

The clock reading (`Date.now()`) is the `now` parameter of `Next`. The
random machine id (`Math.floor(Math.random() * 2 ** machineBits)`) is the
`draw` parameter of the constructor. `draw` must lie in
`[0, 2^machineBits)`, or be 0 when `machineBits` is negative.

The code's own behaviour, which the model keeps:

- The fields overlap. The machine id is shifted by `machineBits` and the
  counter by `incrementBits`, not by their field offsets. The collision
  lemmas show the consequence: the generator can return the same id twice.
- Nothing is validated. The constructor accepts widths that sum past
  `totalBits`, and every `next()` on such a generator then throws a
  RangeError from `2n ** incrementBits`. An explicit machine id is never
  range-checked.
- The class has no decode operation.

## Model

| member | source | states |
|---|---|---|
| `BigInts.Pow2` | src/index.ts:22 | `2n ** n` for a non-negative exponent is at least 1 |
| `BigInts.Shl` | src/index.ts:42-44 | `a << k` is `a * 2^k` for `k >= 0`; for negative `k` it is the floor of `a / 2^-k`; either way it has the sign of `a` |
| `BigInts.Rem` | src/index.ts:22 | `%` takes the dividend's sign and agrees with the Euclidean remainder on non-negative dividends |
| `BigInts.Or` | src/index.ts:43-44 | bitwise OR is negative exactly when an operand is; on naturals it lies between the larger operand and the sum |
| `BigInts.OrTestBit` | src/index.ts:43-44 | each bit of `Or(a, b)` is the OR of the operands' bits, so `Or` is bitwise OR |
| `BigInts.OrCommutes` | src/index.ts:43-44 | OR is commutative |
| `BigInts.OrAssociates` | src/index.ts:43-44 | OR is associative, so the two OR-assignments can be regrouped |
| `BigInts.OrIdempotent` | src/index.ts:43-44 | OR is idempotent |
| `BigInts.OrShift` | src/index.ts:42-44 | shifting both operands left by `k` commutes with OR |
| `BigInts.OrDisjoint` | src/index.ts:42-44 | OR-ing a value below `2^k` into `a << k` adds it |
| `BigInts.OrBelow` | src/index.ts:42-44 | the OR of two naturals below `2^k` is a natural below `2^k` |
| `Snowflake.OrElse` | src/index.ts:26-36 | the `or-else` default: a missing or zero option gives the fallback; anything else is kept and is non-zero |
| `Snowflake.ResolveWidths` | src/index.ts:26-29 | falsy widths default to 64/41/10; no width is zero; `incrementBits = totalBits - epochBits - machineBits`, unvalidated |
| `Snowflake.ResolveEpoch` | src/index.ts:31 | a falsy epoch becomes 1577836800000 (2020-01-01 UTC); the epoch is never 0 |
| `Snowflake.ResolveMachineId` | src/index.ts:33-36 | a non-zero explicit machine id is kept; a missing or zero one is replaced by the draw, which lies in `[0, 2^machineBits)` |
| `Snowflake.Resolve` | src/index.ts:26-36 | the constructor's settings: the counter width is the total minus the other two widths, the epoch is never 0, a non-zero explicit machine id is kept, and otherwise the machine id is the draw, a natural below `2^machineBits` when that width is non-negative (the draw's range is `DrawInRange`, modelling `Math.floor(Math.random() * 2 ** machineBits)` at line 35) |
| `Snowflake.DefaultsResolve` | src/index.ts:26-36 | with no options: widths 64/41/10/13, epoch 1577836800000, machine id the draw, below 1024 |
| `Snowflake.FalsyOptionsAreDefaults` | src/index.ts:26-36 | options that are all zero resolve exactly as missing ones; an explicit machine id 0 is never kept |
| `Snowflake.Advance` | src/index.ts:21-23 | one read sets `index` to `(index + 1) mod 2^incrementBits`, which lies in `[0, 2^incrementBits)`; with a negative width the `++` still happens |
| `Snowflake.ReadIncrementId` | src/index.ts:21-23 | the read returns exactly the value it stored; it fails exactly when `incrementBits` is negative |
| `Snowflake.IndexAfter` | src/index.ts:19-23 | the counter after `n` reads of a fresh generator stays in `[0, 2^incrementBits)` |
| `Snowflake.CounterCountsReads` | src/index.ts:19-23 | after `n` reads from a fresh generator the counter is `n mod 2^incrementBits` |
| `Snowflake.CounterPeriodIsExact` | src/index.ts:19-23 | a fresh counter yields 1, 2, ..., `2^incrementBits - 1` and first returns to 0 after exactly `2^incrementBits` reads |
| `Snowflake.CounterRepeats` | src/index.ts:19-23 | the counter repeats with period `2^incrementBits` |
| `Snowflake.Mint` | src/index.ts:39-47 | `next(now)` fails exactly when the counter width is negative; otherwise it packs `now - epoch`, the machine id and the counter value just advanced |
| `Snowflake.OverfullWidthsFail` | src/index.ts:22-29 | `next()` fails exactly when the resolved timestamp and machine widths exceed the resolved total |
| `Snowflake.Pack` | src/index.ts:42-44 | the three OR-ed shifts give a negative id exactly when the elapsed time, the machine id or the counter is negative; the layout properties are the lemmas `PackFits` (range), `PackLowBitsClear` (low bits), `SameMillisecondCollision` and `NextMillisecondCollision` (overlapping fields) |
| `Snowflake.PackLowBitsClear` | src/index.ts:42-44 | bits below the smallest shift amount are always 0; under the default widths every id is a multiple of 1024 |
| `Snowflake.PackFits` | src/index.ts:42-44 | with in-range fields, and machine and counter fields that stay below `totalBits` after their shifts, the id is a natural below `2^totalBits` (64 bits by default) |
| `Snowflake.SameMillisecondCollision` | src/index.ts:42-44 | under the default widths, machine id 8 with counters 2 and 3 gives the same id at any elapsed time |
| `Snowflake.NextMillisecondCollision` | src/index.ts:42-44 | under the default widths, with counter 1024, elapsed times `2e` and `2e + 1` give the same id for every machine id |
| `Snowflake.ConsecutiveCallsCollide` | src/index.ts:39-47 | two consecutive `next()` calls at one clock reading, from counter 1 on a default generator with machine id 8, succeed with the same id |
| `Snowflake.PackAfterOneSecond` | src/index.ts:40-44 | machine 5, 1000 ms after the epoch: counter 1 gives 8388621312, counter 2 gives 8388629504 |
| `Snowflake.SnowflakeIdGenerator.constructor` | src/index.ts:25-37 | the readonly fields are the resolved options and the draw; the counter starts at 0 |
| `Snowflake.SnowflakeIdGenerator.IncrementId` | src/index.ts:21-23 | the getter changes only `index`, to `Advance(old index)`, and returns `ReadIncrementId(old index)` |
| `Snowflake.SnowflakeIdGenerator.Next` | src/index.ts:39-47 | `next()` advances the counter exactly once, changes nothing else, and returns `Mint(settings, now, old index)` |
| `Snowflake.Registry.constructor` | src/index.ts:49 | before any `set` or `next` there is no default instance |
| `Snowflake.Registry.Set` | src/index.ts:51-53 | `set(options)` installs a fresh generator for those options whose counter is 0 |
| `Snowflake.Registry.Next` | src/index.ts:55-58 | static `next()` creates a default-configured generator only when there is none, otherwise reuses it, and returns what that generator's `next()` returns |
| `Snowflake.FirstIdsAfterOneSecond` | src/index.ts:25-47 | through the class, machine id 5 at 1000 ms past the default epoch gives `Ok(8388621312)` and then `Ok(8388629504)` |
| `Snowflake.DuplicateIdsForMachineEight` | src/index.ts:25-47 | through the class, a generator with machine id 8 returns the same id on its second and third calls at one clock reading |

## Left out

- The system clock: `Date.now()` is the `now` parameter of `Next`.
- Floating-point randomness: the draw from `Math.random()` is the `draw` parameter. It may be any integer in range. For `machineBits` above 53 the real draw reaches only some of those values, and the model does not capture this.
- Snowflake.SnowflakeIdGenerator.constructor: with no explicit machine id and `machineBits` of 1024 or more, `2 ** machineBits` overflows the float range and the constructor throws. The model does not capture this; it accepts any draw below `2^machineBits`.
- JavaScript coercions: `BigInt(...)` on a non-integer number option throws, and `Number(...)` converts between number and bigint. Options are modelled as optional integers, with zero standing for every falsy value.
- The engine's maximum `bigint` size: a `<<` or a `2n ** incrementBits` whose result would exceed it throws a RangeError ("Maximum BigInt size exceeded") at run time. Dafny's integers are unbounded, so the model has no such limit.
- Snowflake.ReadIncrementId: fails only on a negative `incrementBits`; a width so large that `2n ** incrementBits` exceeds the maximum `bigint` size also throws in the source, and the model returns `Ok` there.
- Snowflake.Mint: fails only on a negative counter width; the source also throws when `2n ** incrementBits` or one of the three shifts exceeds the maximum `bigint` size, which the model does not capture.
- Snowflake.OverfullWidthsFail: its "exactly when" holds for the model's `Mint`; in the source, widths large enough to exceed the maximum `bigint` size also make `next()` throw.
- Subclassing through `new this(...)` in the static methods: `Registry` always builds a `SnowflakeIdGenerator`.
- Concurrent callers: JavaScript runs the class on one thread, and the model is sequential.
- Decoding an id and per-millisecond uniqueness: the class provides neither. The collision lemmas show that its packing does not allow them.
