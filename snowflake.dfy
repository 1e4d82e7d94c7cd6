/** The `SnowflakeIdGenerator` class: option defaults, the wrapping counter,
    the shift-and-OR packing of an id, and the process-wide default instance.
    The clock (`Date.now()`) and the random machine id (`Math.random()`) are
    parameters supplied by the caller. */
module Snowflake {
  import opened BigInts

  datatype Option<T> = None | Some(value: T)

  /** The only failure of the class: `2n ** n` with a negative `n` throws a
      RangeError. */
  datatype Error = RangeError

  datatype Result<T> = Ok(value: T) | Err(error: Error)

  /** The constructor's options; every one of them may be left out. */
  datatype Options = Options(
    epoch: Option<int>,
    machineId: Option<int>,
    totalBits: Option<int>,
    epochBits: Option<int>,
    machineBits: Option<int>)

  const NoOptions := Options(None, None, None, None, None)

  /** The four widths a generator keeps; `incrementBits` is derived. */
  datatype Widths = Widths(totalBits: int, epochBits: int, machineBits: int, incrementBits: int)

  /** Everything a generator fixes at construction. */
  datatype Config = Config(widths: Widths, epoch: int, machineId: int)

  const DefaultTotalBits := 64
  const DefaultEpochBits := 41
  const DefaultMachineBits := 10
  const DefaultWidths := Widths(64, 41, 10, 13)

  /** `new Date("2020-01-01").getTime()`: midnight UTC on 1 January 2020,
      18262 days after the Unix epoch, in milliseconds. */
  const DefaultEpoch := 1577836800000

  // ---------------------------------------------------------------------
  // Option resolution (constructor)
  // ---------------------------------------------------------------------

  /** An option is falsy when it is missing or zero. */
  predicate Falsy(x: Option<int>) {
    x.None? || x.value == 0
  }

  /** `x || fallback`: a falsy option gives way to the fallback. */
  function OrElse(x: Option<int>, fallback: int): (r: int)
    ensures Falsy(x) ==> r == fallback
    ensures !Falsy(x) ==> r == x.value && r != 0
  {
    if Falsy(x) then fallback else x.value
  }

  /** The widths: falsy widths take their defaults, no width is ever zero
      (the defaults are not), and the increment width is what is left of the
      total. Nothing is validated, so `incrementBits` may be negative. */
  function ResolveWidths(o: Options): (w: Widths)
    ensures w.totalBits != 0 && w.epochBits != 0 && w.machineBits != 0
    ensures w.incrementBits == w.totalBits - w.epochBits - w.machineBits
    ensures w.totalBits == OrElse(o.totalBits, DefaultTotalBits)
    ensures w.epochBits == OrElse(o.epochBits, DefaultEpochBits)
    ensures w.machineBits == OrElse(o.machineBits, DefaultMachineBits)
  {
    var total := OrElse(o.totalBits, DefaultTotalBits);
    var epochBits := OrElse(o.epochBits, DefaultEpochBits);
    var machineBits := OrElse(o.machineBits, DefaultMachineBits);
    Widths(total, epochBits, machineBits, total - epochBits - machineBits)
  }

  /** The epoch: a falsy epoch becomes the start of 2020, so it is never 0. */
  function ResolveEpoch(o: Options): (e: int)
    ensures e != 0
    ensures Falsy(o.epoch) ==> e == DefaultEpoch
    ensures !Falsy(o.epoch) ==> e == o.epoch.value
  {
    OrElse(o.epoch, DefaultEpoch)
  }

  /** What `Math.floor(Math.random() * 2 ** machineBits)` can yield: an
      integer in [0, 2^machineBits), which is 0 alone when the width is
      negative (the float bound is then below 1). */
  predicate DrawInRange(machineBits: int, draw: int) {
    0 <= draw && if machineBits >= 0 then draw < Pow2(machineBits) else draw == 0
  }

  /** The machine id: a non-zero explicit id is kept; a missing or zero one
      is replaced by the random draw, which lies below 2^machineBits. */
  function ResolveMachineId(o: Options, machineBits: int, draw: int): (m: int)
    requires DrawInRange(machineBits, draw)
    ensures !Falsy(o.machineId) ==> m == o.machineId.value
    ensures Falsy(o.machineId) ==> m == draw && 0 <= m
    ensures Falsy(o.machineId) && 0 <= machineBits ==> m < Pow2(machineBits)
  {
    OrElse(o.machineId, draw)
  }

  /** Everything the constructor fixes: the counter width is what the
      other widths leave of the total, the epoch is never 0, and the machine
      id is the explicit non-zero one or else the draw, below
      2^machineBits. */
  function Resolve(o: Options, draw: int): (c: Config)
    requires DrawInRange(ResolveWidths(o).machineBits, draw)
    ensures c.widths.incrementBits == c.widths.totalBits - c.widths.epochBits - c.widths.machineBits
    ensures c.epoch != 0
    ensures !Falsy(o.machineId) ==> c.machineId == o.machineId.value
    ensures Falsy(o.machineId) ==> c.machineId == draw && 0 <= c.machineId
    ensures Falsy(o.machineId) && 0 <= c.widths.machineBits ==> c.machineId < Pow2(c.widths.machineBits)
  {
    var w := ResolveWidths(o);
    Config(w, ResolveEpoch(o), ResolveMachineId(o, w.machineBits, draw))
  }

  /** With no options the generator uses 64 bits in total, 41 for the
      timestamp and 10 for the machine, leaving 13 for the counter; the
      epoch is 2020-01-01 and the machine id is the random draw. */
  lemma DefaultsResolve(draw: int)
    requires DrawInRange(DefaultMachineBits, draw)
    ensures Resolve(NoOptions, draw) == Config(DefaultWidths, DefaultEpoch, draw)
    ensures 0 <= draw < 1024
  {
  }

  /** Zero-valued options are the same as missing ones; in particular an
      explicit machine id of 0 is never kept. */
  lemma FalsyOptionsAreDefaults(o: Options, draw: int)
    requires Falsy(o.epoch) && Falsy(o.machineId) && Falsy(o.totalBits)
    requires Falsy(o.epochBits) && Falsy(o.machineBits)
    requires DrawInRange(DefaultMachineBits, draw)
    ensures Resolve(o, draw) == Resolve(NoOptions, draw)
  {
  }

  // ---------------------------------------------------------------------
  // The wrapping counter (`incrementId` getter)
  // ---------------------------------------------------------------------

  /** The `index` after one `incrementId` read. The prefix `++` runs before
      `2n ** incrementBits` is evaluated, so for a negative width the index
      is left one higher even though the read then throws. */
  function Advance(index: int, incrementBits: int): (r: int)
    requires 0 <= index
    ensures 0 <= r
    ensures 0 <= incrementBits ==> r < Pow2(incrementBits) && r == (index + 1) % Pow2(incrementBits)
    ensures incrementBits < 0 ==> r == index + 1
  {
    if incrementBits < 0 then index + 1 else Rem(index + 1, Pow2(incrementBits))
  }

  /** What an `incrementId` read returns: the value it has just stored, or
      the RangeError of a negative width. */
  function ReadIncrementId(index: int, incrementBits: int): (r: Result<int>)
    requires 0 <= index
    ensures r.Ok? <==> 0 <= incrementBits
    ensures r.Ok? ==> r.value == Advance(index, incrementBits) && r.value < Pow2(incrementBits)
  {
    if incrementBits < 0 then Err(RangeError) else Ok(Advance(index, incrementBits))
  }

  /** The counter's value after `n` reads of a fresh generator. */
  function IndexAfter(n: nat, incrementBits: nat): (r: int)
    ensures 0 <= r < Pow2(incrementBits)
  {
    if n == 0 then 0 else Advance(IndexAfter(n - 1, incrementBits), incrementBits)
  }

  /** A fresh counter counts reads modulo 2^incrementBits. */
  lemma {:induction false} CounterCountsReads(n: nat, incrementBits: nat)
    ensures IndexAfter(n, incrementBits) == n % Pow2(incrementBits)
  {
    if n > 0 {
      var p, before := Pow2(incrementBits), IndexAfter(n - 1, incrementBits);
      CounterCountsReads(n - 1, incrementBits);
      assert IndexAfter(n, incrementBits) == (before + 1) % p;
      ModSucc(n - 1, p);
    } else {
      DivModOfMultiplePlus(0, Pow2(incrementBits), 0);
    }
  }

  /** The reads of a fresh counter yield 1, 2, ..., 2^incrementBits - 1 and
      then 0: it first returns to 0 after exactly 2^incrementBits reads. */
  lemma CounterPeriodIsExact(incrementBits: nat)
    ensures IndexAfter(Pow2(incrementBits), incrementBits) == 0
    ensures forall n: nat :: 0 < n < Pow2(incrementBits) ==> IndexAfter(n, incrementBits) == n
  {
    var p := Pow2(incrementBits);
    CounterCountsReads(p, incrementBits);
    DivModOfMultiplePlus(1, p, 0);
    forall n: nat | 0 < n < p
      ensures IndexAfter(n, incrementBits) == n
    {
      CounterCountsReads(n, incrementBits);
      DivModOfMultiplePlus(0, p, n);
    }
  }

  /** After a full period the counter repeats itself. */
  lemma CounterRepeats(n: nat, incrementBits: nat)
    ensures IndexAfter(n + Pow2(incrementBits), incrementBits) == IndexAfter(n, incrementBits)
  {
    CounterCountsReads(n, incrementBits);
    CounterCountsReads(n + Pow2(incrementBits), incrementBits);
    ModPeriod(n, Pow2(incrementBits));
  }

  // ---------------------------------------------------------------------
  // Packing (`next()`)
  // ---------------------------------------------------------------------

  /** The id `next()` builds, with the shift amounts exactly as the class
      writes them: the elapsed time by `totalBits - epochBits`, the machine
      id by `machineBits` and the counter by `incrementBits`. */
  function Pack(w: Widths, elapsed: int, machineId: int, sequence: int): (id: int)
    ensures id < 0 <==> elapsed < 0 || machineId < 0 || sequence < 0
  {
    Or(Or(Shl(elapsed, w.totalBits - w.epochBits), Shl(machineId, w.machineBits)),
       Shl(sequence, w.incrementBits))
  }

  /** The outcome of `next()` at clock reading `now` on a generator whose
      counter stands at `index`: it fails exactly when the counter width is
      negative, and otherwise packs the elapsed milliseconds, the machine id
      and the counter value just advanced. */
  function Mint(c: Config, now: int, index: int): (r: Result<int>)
    requires 0 <= index
    ensures r.Ok? <==> 0 <= c.widths.incrementBits
    ensures r.Ok? ==>
      r.value == Pack(c.widths, now - c.epoch, c.machineId, Advance(index, c.widths.incrementBits))
  {
    match ReadIncrementId(index, c.widths.incrementBits)
    case Err(e) => Err(e)
    case Ok(sequence) => Ok(Pack(c.widths, now - c.epoch, c.machineId, sequence))
  }

  /** Nothing is validated at construction: when the timestamp and machine
      widths together exceed the total, the counter width is negative and
      every `next()` on that generator fails. */
  lemma OverfullWidthsFail(o: Options, draw: int, now: int, index: int)
    requires DrawInRange(ResolveWidths(o).machineBits, draw) && 0 <= index
    ensures Mint(Resolve(o, draw), now, index).Err? <==>
      OrElse(o.epochBits, DefaultEpochBits) + OrElse(o.machineBits, DefaultMachineBits)
        > OrElse(o.totalBits, DefaultTotalBits)
  {
  }

  function Min(a: int, b: int): int {
    if a <= b then a else b
  }

  lemma ShlFactor(x: int, j: int, k: nat)
    requires k <= j
    ensures Shl(x, j) == (x * Pow2(j - k)) * Pow2(k)
  {
    Pow2Add(j - k, k);
    assert x * (Pow2(j - k) * Pow2(k)) == (x * Pow2(j - k)) * Pow2(k);
  }

  lemma MultipleMod(x: int, p: int)
    requires 0 < p
    ensures (x * p) % p == 0
  {
    DivModOfMultiplePlus(x, p, 0);
  }

  /** With non-negative shift amounts, the bits below the smallest of them
      are always clear: under the default widths the low ten bits of every
      id are zero. */
  lemma {:induction false} PackLowBitsClear(w: Widths, elapsed: int, machineId: int, sequence: int)
    requires 0 <= w.machineBits && 0 <= w.incrementBits && w.epochBits <= w.totalBits
    ensures Pack(w, elapsed, machineId, sequence)
      % Pow2(Min(Min(w.totalBits - w.epochBits, w.machineBits), w.incrementBits)) == 0
  {
    var k := Min(Min(w.totalBits - w.epochBits, w.machineBits), w.incrementBits);
    var t := w.totalBits - w.epochBits;
    ShlFactor(elapsed, t, k);
    ShlFactor(machineId, w.machineBits, k);
    ShlFactor(sequence, w.incrementBits, k);
    var a, b, c := elapsed * Pow2(t - k), machineId * Pow2(w.machineBits - k),
      sequence * Pow2(w.incrementBits - k);
    OrShift(a, b, k);
    OrShift(Or(a, b), c, k);
    MultipleMod(Or(Or(a, b), c), Pow2(k));
  }

  lemma ShlBelow(x: int, n: nat, j: nat, total: nat)
    requires 0 <= x < Pow2(n) && n + j <= total
    ensures 0 <= Shl(x, j) < Pow2(total)
  {
    Pow2Add(n, j);
    Pow2Monotone(n + j, total);
    MulBelow(x, Pow2(n), Pow2(j));
  }

  /** When every field is in range and neither the machine field nor the
      counter field, shifted by its own width, spills past the total, the id
      is a natural below 2^totalBits; the default widths qualify, so their
      ids fit in 64 bits. */
  lemma PackFits(w: Widths, elapsed: int, machineId: int, sequence: int)
    requires 0 <= w.epochBits && 0 <= w.machineBits && 0 <= w.incrementBits
    requires w.incrementBits == w.totalBits - w.epochBits - w.machineBits
    requires 2 * w.machineBits <= w.totalBits && 2 * w.incrementBits <= w.totalBits
    requires 0 <= elapsed < Pow2(w.epochBits)
    requires 0 <= machineId < Pow2(w.machineBits)
    requires 0 <= sequence < Pow2(w.incrementBits)
    ensures 0 <= Pack(w, elapsed, machineId, sequence) < Pow2(w.totalBits)
  {
    ShlBelow(elapsed, w.epochBits, w.totalBits - w.epochBits, w.totalBits);
    ShlBelow(machineId, w.machineBits, w.machineBits, w.totalBits);
    ShlBelow(sequence, w.incrementBits, w.incrementBits, w.totalBits);
    var a, b := Shl(elapsed, w.totalBits - w.epochBits), Shl(machineId, w.machineBits);
    OrBelow(a, b, w.totalBits);
    OrBelow(Or(a, b), Shl(sequence, w.incrementBits), w.totalBits);
  }

  /** The fields overlap. Under the default widths a machine id of 8 sets
      bit 13, which is also the lowest bit of the shifted counter, so the
      counter values 2 and 3 give the same id in the same millisecond. */
  lemma SameMillisecondCollision(elapsed: int)
    ensures Pack(DefaultWidths, elapsed, 8, 2) == Pack(DefaultWidths, elapsed, 8, 3)
  {
    var t := Shl(elapsed, 23);
    assert Shl(8, 10) == 8192 && Shl(2, 13) == 16384 && Shl(3, 13) == 24576;
    OrAssociates(t, 8192, 16384);
    OrAssociates(t, 8192, 24576);
    OrCommutes(8192, 16384);
    OrDisjoint(1, 8192, 14);
    OrShift(1, 3, 13);
  }

  /** The counter field reaches into the timestamp field: with the counter
      at 1024, an even elapsed millisecond and the next one give the same
      id, whatever the machine id. */
  lemma NextMillisecondCollision(elapsed: int, machineId: int)
    ensures Pack(DefaultWidths, 2 * elapsed, machineId, 1024)
         == Pack(DefaultWidths, 2 * elapsed + 1, machineId, 1024)
  {
    var b, m := Pow2(23), Shl(machineId, 10);
    var e := elapsed * Pow2(24);
    assert Shl(1024, 13) == b;
    assert Shl(2 * elapsed, 23) == e by {
      Pow2Add(1, 23);
      assert (2 * elapsed) * Pow2(23) == elapsed * (2 * Pow2(23));
    }
    assert Shl(2 * elapsed + 1, 23) == Or(e, b) by {
      Pow2Add(1, 23);
      assert (2 * elapsed + 1) * Pow2(23) == elapsed * (2 * Pow2(23)) + Pow2(23);
      OrDisjoint(elapsed, b, 24);
    }
    // Or(Or(Or(e, b), m), b) == Or(Or(e, m), b)
    OrAssociates(e, b, m);
    OrCommutes(b, m);
    OrAssociates(e, m, b);
    OrAssociates(Or(e, m), b, b);
    OrIdempotent(b);
  }

  /** Two consecutive `next()` calls in one millisecond, on a default-width
      generator with machine id 8 whose counter stands at 1, both succeed
      and return the same id. */
  lemma ConsecutiveCallsCollide(c: Config, now: int)
    requires c.widths == DefaultWidths && c.machineId == 8
    ensures Mint(c, now, 1).Ok? && Mint(c, now, 1) == Mint(c, now, Advance(1, 13))
  {
    assert Advance(1, 13) == 2 && Advance(2, 13) == 3;
    SameMillisecondCollision(now - c.epoch);
  }

  // ---------------------------------------------------------------------
  // The generator
  // ---------------------------------------------------------------------

  class SnowflakeIdGenerator {
    const totalBits: int
    const epochBits: int
    const machineBits: int
    const incrementBits: int
    const epoch: int
    const machineId: int

    var index: int

    /** The counter is a natural, and below 2^incrementBits whenever that
        width is non-negative. */
    ghost predicate Valid()
      reads this
    {
      0 <= index && (0 <= incrementBits ==> index < Pow2(incrementBits))
    }

    function Settings(): Config {
      Config(Widths(totalBits, epochBits, machineBits, incrementBits), epoch, machineId)
    }

    /** `draw` stands for the random machine id, used only when the options
        give none (or 0). */
    constructor (options: Options, draw: int)
      requires DrawInRange(ResolveWidths(options).machineBits, draw)
      ensures Settings() == Resolve(options, draw)
      ensures index == 0 && Valid()
    {
      var w := ResolveWidths(options);
      totalBits := w.totalBits;
      epochBits := w.epochBits;
      machineBits := w.machineBits;
      incrementBits := w.incrementBits;
      epoch := ResolveEpoch(options);
      machineId := ResolveMachineId(options, w.machineBits, draw);
      index := 0;
    }

    /** The `incrementId` getter: advances the counter and returns the value
        it stored. */
    method IncrementId() returns (r: Result<int>)
      requires Valid()
      modifies this`index
      ensures Valid()
      ensures index == Advance(old(index), incrementBits)
      ensures r == ReadIncrementId(old(index), incrementBits)
    {
      index := index + 1;
      if incrementBits < 0 {
        return Err(RangeError);
      }
      index := Rem(index, Pow2(incrementBits));
      r := Ok(index);
    }

    /** `next()` with the clock reading `now` passed in: advances the
        counter exactly once, changes nothing else, and returns the packed
        id (or the RangeError of a negative counter width). */
    method Next(now: int) returns (r: Result<int>)
      requires Valid()
      modifies this`index
      ensures Valid()
      ensures index == Advance(old(index), incrementBits)
      ensures r == Mint(Settings(), now, old(index))
    {
      var diff := now - epoch;
      var id := Shl(diff, totalBits - epochBits);
      id := Or(id, Shl(machineId, machineBits));
      var sequence := IncrementId();
      match sequence
      case Err(e) =>
        r := Err(e);
      case Ok(s) =>
        id := Or(id, Shl(s, incrementBits));
        r := Ok(id);
    }
  }

  /** The class-level default instance behind the static `set` and `next`. */
  class Registry {
    var instance: SnowflakeIdGenerator?

    ghost predicate Valid()
      reads this, instance
    {
      instance != null ==> instance.Valid()
    }

    constructor ()
      ensures instance == null && Valid()
    {
      instance := null;
    }

    /** Static `set(options)`: installs a fresh generator, whose counter
        starts at 0, in place of any previous one. */
    method Set(options: Options, draw: int)
      requires DrawInRange(ResolveWidths(options).machineBits, draw)
      modifies this
      ensures instance != null && fresh(instance) && Valid()
      ensures instance.Settings() == Resolve(options, draw) && instance.index == 0
    {
      instance := new SnowflakeIdGenerator(options, draw);
    }

    /** Static `next()`: creates a default-configured generator only when
        there is none, then mints from the installed one. */
    method Next(now: int, draw: int) returns (r: Result<int>)
      requires Valid()
      requires DrawInRange(DefaultMachineBits, draw)
      modifies this, instance
      ensures instance != null && Valid()
      ensures old(instance) != null ==> instance == old(instance)
      ensures old(instance) == null ==>
        fresh(instance) && instance.Settings() == Config(DefaultWidths, DefaultEpoch, draw)
      ensures var before := if old(instance) == null then 0 else old(instance.index);
        r == Mint(instance.Settings(), now, before) &&
        instance.index == Advance(before, instance.incrementBits)
    {
      if instance == null {
        DefaultsResolve(draw);
        instance := new SnowflakeIdGenerator(NoOptions, draw);
      }
      r := instance.Next(now);
    }
  }

  // ---------------------------------------------------------------------
  // Worked examples through the class
  // ---------------------------------------------------------------------

  /** The ids of machine 5 one second past the epoch with counter values
      1 and 2, under the default widths. */
  lemma PackAfterOneSecond()
    ensures Pack(DefaultWidths, 1000, 5, 1) == 8388621312
    ensures Pack(DefaultWidths, 1000, 5, 2) == 8388629504
  {
    assert Pow2(10) == 1024 && Pow2(13) == 8192 && Pow2(14) == 16384 && Pow2(23) == 8388608;
    var t := 1000 * Pow2(23);
    assert Shl(1000, 23) == t && Shl(5, 10) == 5120;
    assert Shl(1, 13) == 1 * Pow2(13) && Shl(2, 13) == 1 * Pow2(14);
    OrAssociates(t, 5120, 1 * Pow2(13));
    OrCommutes(5120, 1 * Pow2(13));
    OrDisjoint(1, 5120, 13);
    OrDisjoint(1000, 13312, 23);
    OrAssociates(t, 5120, 1 * Pow2(14));
    OrCommutes(5120, 1 * Pow2(14));
    OrDisjoint(1, 5120, 14);
    OrDisjoint(1000, 21504, 23);
  }

  /** Machine id 5, default widths and epoch, the clock one second past
      the epoch: the first two ids carry counter values 1 and 2. */
  method FirstIdsAfterOneSecond() returns (first: Result<int>, second: Result<int>)
    ensures first == Ok(8388621312) && second == Ok(8388629504)
  {
    var c := Config(DefaultWidths, DefaultEpoch, 5);
    var g := new SnowflakeIdGenerator(Options(None, Some(5), None, None, None), 0);
    assert g.Settings() == c;
    first := g.Next(DefaultEpoch + 1000);
    second := g.Next(DefaultEpoch + 1000);
    assert Advance(0, 13) == 1 && Advance(1, 13) == 2 by {
      DivModOfMultiplePlus(0, 8192, 1);
      DivModOfMultiplePlus(0, 8192, 2);
    }
    PackAfterOneSecond();
    assert first == Mint(c, DefaultEpoch + 1000, 0);
    assert second == Mint(c, DefaultEpoch + 1000, 1);
  }

  /** Machine id 8 with default widths: the second and third calls at the
      same clock reading return the same id. */
  method DuplicateIdsForMachineEight(now: int)
    returns (first: Result<int>, second: Result<int>, third: Result<int>)
    ensures second.Ok? && second == third
  {
    var g := new SnowflakeIdGenerator(Options(None, Some(8), None, None, None), 0);
    assert g.Settings() == Config(DefaultWidths, DefaultEpoch, 8);
    first := g.Next(now);
    assert g.index == 1;
    second := g.Next(now);
    third := g.Next(now);
    ConsecutiveCallsCollide(g.Settings(), now);
  }
}
