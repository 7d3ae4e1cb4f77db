/** utils/id_util.py: the Snowflake id generator. An id packs, from the most significant end, the
    milliseconds since the epoch, a 5-bit datacenter id, a 5-bit worker id and a 12-bit sequence
    number. The wall clock is a list of readings (milliseconds, already truncated to an integer) that
    the worker consumes one per call of _time_gen. */
module IdUtil {
  import opened Wrappers

  const DatacenterIdBits: nat := 5
  const WorkerIdBits: nat := 5
  const SequenceBits: nat := 12
  const DefaultEpochMs: int := 1704067200000

  function Pow2(n: nat): (p: nat)
    ensures p >= 1
  {
    if n == 0 then 1 else 2 * Pow2(n - 1)
  }

  /** `(1 << bits) - 1` and the shift amounts, as the constructor derives them. */
  const MaxDatacenterId: nat := 31
  const MaxWorkerId: nat := 31
  const SequenceMask: nat := 4095
  const WorkerIdShift: nat := 12
  const DatacenterIdShift: nat := 17
  const TimestampLeftShift: nat := 22

  /** The constants agree with the bit widths they are derived from. */
  lemma Constants()
    ensures MaxDatacenterId == Pow2(DatacenterIdBits) - 1 && MaxWorkerId == Pow2(WorkerIdBits) - 1
    ensures SequenceMask == Pow2(SequenceBits) - 1
    ensures WorkerIdShift == SequenceBits && DatacenterIdShift == SequenceBits + WorkerIdBits
    ensures TimestampLeftShift == SequenceBits + WorkerIdBits + DatacenterIdBits
    ensures Pow2(WorkerIdShift) == 4096 && Pow2(DatacenterIdShift) == 131072 && Pow2(TimestampLeftShift) == 4194304
  {
    assert Pow2(5) == 32 by {
      assert Pow2(1) == 2 && Pow2(2) == 4 && Pow2(3) == 8 && Pow2(4) == 16;
    }
    assert Pow2(12) == 4096 by {
      assert Pow2(6) == 64 && Pow2(7) == 128 && Pow2(8) == 256 && Pow2(9) == 512 && Pow2(10) == 1024 && Pow2(11) == 2048;
    }
    assert Pow2(17) == 131072 by {
      assert Pow2(13) == 8192 && Pow2(14) == 16384 && Pow2(15) == 32768 && Pow2(16) == 65536;
    }
    assert Pow2(22) == 4194304 by {
      assert Pow2(18) == 262144 && Pow2(19) == 524288 && Pow2(20) == 1048576 && Pow2(21) == 2097152;
    }
  }

  /** Python's `|` on non-negative integers, bit by bit. */
  function BitOr(a: nat, b: nat): nat
    decreases a + b
  {
    if a == 0 then b
    else if b == 0 then a
    else 2 * BitOr(a / 2, b / 2) + (if a % 2 == 1 || b % 2 == 1 then 1 else 0)
  }

  /** Python's `<<` on a non-negative integer. */
  function ShiftLeft(a: nat, k: nat): nat {
    a * Pow2(k)
  }

  /** Python's `&` on non-negative integers, bit by bit. */
  function BitAnd(a: nat, b: nat): nat
    decreases a + b
  {
    if a == 0 || b == 0 then 0
    else 2 * BitAnd(a / 2, b / 2) + (if a % 2 == 1 && b % 2 == 1 then 1 else 0)
  }

  /** `x & ((1 << k) - 1)` keeps the low k bits: it is the remainder modulo 2^k. */
  lemma {:induction false} AndMask(x: nat, k: nat)
    ensures BitAnd(x, Pow2(k) - 1) == x % Pow2(k)
  {
    if k == 0 {
    } else if x == 0 {
    } else {
      var m := Pow2(k) - 1;
      assert m / 2 == Pow2(k - 1) - 1 && m % 2 == 1;
      if k == 1 {
        assert m == 1 && BitAnd(x / 2, 0) == 0;
        assert BitAnd(x, m) == x % 2;
      } else {
        AndMask(x / 2, k - 1);
        assert BitAnd(x, m) == 2 * ((x / 2) % Pow2(k - 1)) + x % 2;
        DivModStep(x, Pow2(k - 1));
      }
    }
  }

  /** x mod 2p, split into its lowest bit and the rest. */
  lemma DivModStep(x: nat, p: nat)
    requires p >= 1
    ensures x % (2 * p) == 2 * ((x / 2) % p) + x % 2
  {
    var q := (x / 2) / p;
    var r := (x / 2) % p;
    assert x / 2 == q * p + r;
    assert x == (2 * p) * q + (2 * r + x % 2);
    assert 0 <= 2 * r + x % 2 < 2 * p;
    DivModUnique(x, 2 * p, q, 2 * r + x % 2);
  }

  /** Quotient and remainder are determined by `x == q * d + r` with `0 <= r < d`, for every
      integer x (Python's floor division and Dafny's Euclidean one agree for d > 0). */
  lemma DivModUnique(x: int, d: int, q: int, r: int)
    requires d > 0 && 0 <= r < d && x == d * q + r
    ensures x / d == q && x % d == r
  {
    var q' := x / d;
    var r' := x % d;
    assert x == d * q' + r';
    if q > q' {
      MulAtLeast(d, q - q');
      assert false;
    } else if q < q' {
      MulAtLeast(d, q' - q);
      assert false;
    }
  }

  lemma MulAtLeast(d: int, e: int)
    requires d > 0 && e >= 1
    ensures d * e >= d
  {
    assert d * e == d * (e - 1) + d;
    assert d * (e - 1) >= 0;
  }

  /** Setting the low k bits of a multiple of 2^k is addition. */
  lemma {:induction false} OrDisjoint(a: nat, b: nat, k: nat)
    requires b < Pow2(k)
    ensures BitOr(a * Pow2(k), b) == a * Pow2(k) + b
  {
    if k == 0 || a == 0 || b == 0 {
    } else {
      var h := a * Pow2(k - 1);
      assert a * Pow2(k) == 2 * h;
      assert h > 0;
      assert (2 * h) / 2 == h && (2 * h) % 2 == 0;
      assert b / 2 < Pow2(k - 1);
      OrDisjoint(a, b / 2, k - 1);
      assert BitOr(2 * h, b) == 2 * BitOr(h, b / 2) + b % 2;
    }
  }

  /** `|` commutes with doubling both operands. */
  lemma OrDouble(a: nat, c: nat)
    ensures BitOr(2 * a, 2 * c) == 2 * BitOr(a, c)
  {
    if a != 0 && c != 0 {
      assert (2 * a) / 2 == a && (2 * a) % 2 == 0 && (2 * c) / 2 == c && (2 * c) % 2 == 0;
    }
  }

  lemma MulPow2Step(a: nat, k: nat)
    requires k > 0
    ensures a * Pow2(k) == 2 * (a * Pow2(k - 1))
  {
  }

  /** `|` commutes with a left shift of both operands. */
  lemma {:induction false} OrShift(a: nat, c: nat, k: nat)
    ensures BitOr(a * Pow2(k), c * Pow2(k)) == BitOr(a, c) * Pow2(k)
  {
    if k == 0 {
      assert a * Pow2(k) == a && c * Pow2(k) == c && BitOr(a, c) * Pow2(k) == BitOr(a, c);
    } else {
      MulPow2Step(a, k);
      MulPow2Step(c, k);
      MulPow2Step(BitOr(a, c), k);
      OrDouble(a * Pow2(k - 1), c * Pow2(k - 1));
      OrShift(a, c, k - 1);
    }
  }

  /** The id for a millisecond offset, datacenter, worker and sequence, as a sum of the shifted
      fields. */
  function Compose(t: int, datacenter: int, worker: int, sequence: int): int {
    t * 4194304 + datacenter * 131072 + worker * 4096 + sequence
  }

  /** The expression of get_id, `(t << 22) | (dc << 17) | (w << 12) | seq` evaluated from the left,
      is the sum of the shifted fields, because the fields do not overlap. */
  lemma ComposeIsOr(t: nat, datacenter: nat, worker: nat, sequence: nat)
    requires datacenter <= MaxDatacenterId && worker <= MaxWorkerId && sequence <= SequenceMask
    ensures BitOr(BitOr(BitOr(ShiftLeft(t, TimestampLeftShift), ShiftLeft(datacenter, DatacenterIdShift)),
                        ShiftLeft(worker, WorkerIdShift)), sequence)
         == Compose(t, datacenter, worker, sequence)
  {
    Constants();
    assert t * 4194304 == (t * 32) * 131072;
    assert Pow2(5) == 32;
    OrShift(t * 32, datacenter, 17);
    OrDisjoint(t, datacenter, 5);
    var x := t * 32 + datacenter;
    assert BitOr(t * 4194304, datacenter * 131072) == x * 131072;
    assert x * 131072 == (x * 32) * 4096;
    OrShift(x * 32, worker, 12);
    OrDisjoint(x, worker, 5);
    var y := x * 32 + worker;
    assert BitOr(x * 131072, worker * 4096) == y * 4096;
    OrDisjoint(y, sequence, 12);
    assert y * 4096 + sequence == Compose(t, datacenter, worker, sequence);
  }

  /** The fields come back out: `id & 4095`, `(id >> 12) & 31`, `(id >> 17) & 31` and `id >> 22`,
      with `>>` as floor division and `& mask` as the remainder; it holds for every millisecond offset,
      negative ones included. */
  lemma Unpack(t: int, datacenter: int, worker: int, sequence: int)
    requires 0 <= datacenter <= MaxDatacenterId && 0 <= worker <= MaxWorkerId && 0 <= sequence <= SequenceMask
    ensures var id := Compose(t, datacenter, worker, sequence);
            && id % 4096 == sequence
            && (id / 4096) % 32 == worker
            && (id / 131072) % 32 == datacenter
            && id / 4194304 == t
  {
    var id := Compose(t, datacenter, worker, sequence);
    var hi := t * 1024 + datacenter * 32 + worker;
    assert id == 4096 * hi + sequence;
    DivModUnique(id, 4096, hi, sequence);
    var mid := t * 32 + datacenter;
    assert hi == 32 * mid + worker;
    DivModUnique(hi, 32, mid, worker);
    assert id == 131072 * mid + (worker * 4096 + sequence);
    DivModUnique(id, 131072, mid, worker * 4096 + sequence);
    assert mid == 32 * t + datacenter;
    DivModUnique(mid, 32, t, datacenter);
    assert id == 4194304 * t + (datacenter * 131072 + worker * 4096 + sequence);
    DivModUnique(id, 4194304, t, datacenter * 131072 + worker * 4096 + sequence);
  }

  /** For a fixed datacenter and worker, ids are ordered like (millisecond, sequence) pairs. */
  lemma ComposeMonotone(t: int, s: int, t': int, s': int, datacenter: int, worker: int)
    requires 0 <= s <= SequenceMask && 0 <= s' <= SequenceMask
    requires t < t' || (t == t' && s < s')
    ensures Compose(t, datacenter, worker, s) < Compose(t', datacenter, worker, s')
  {
    if t < t' {
      assert (t' - t) * 4194304 >= 4194304;
    }
  }

  /** The generator's fields; `epoch` and the two ids never change after construction. */
  datatype Worker = Worker(datacenterId: int, workerId: int, sequence: int, epoch: int, lastTimestamp: int)

  predicate ValidWorker(w: Worker) {
    0 <= w.datacenterId <= MaxDatacenterId && 0 <= w.workerId <= MaxWorkerId && 0 <= w.sequence <= SequenceMask
  }

  /** The id the last call returned (for the initial state, a value below every id it can return). */
  function LastId(w: Worker): int {
    Compose(w.lastTimestamp - w.epoch, w.datacenterId, w.workerId, w.sequence)
  }

  /** _til_next_millis: the first reading strictly after `last`, and the readings left after it; None
      when the readings run out first (the source would keep spinning). */
  function TilNext(clock: seq<int>, last: int): (r: (Option<int>, seq<int>))
    ensures |r.1| < |clock| || (clock == [] && r.1 == [])
    ensures r.1 == clock[|clock| - |r.1|..]
    ensures r.0.Some? ==> r.0.value > last && |r.1| < |clock| && r.0.value == clock[|clock| - |r.1| - 1]
    ensures r.0.Some? ==> forall i :: 0 <= i < |clock| - |r.1| - 1 ==> clock[i] <= last
    ensures r.0.None? ==> r.1 == [] && forall i :: 0 <= i < |clock| ==> clock[i] <= last
  {
    if clock == [] then (None, [])
    else if clock[0] > last then (Some(clock[0]), clock[1..])
    else TilNext(clock[1..], last)
  }

  /** The outcome of get_id: the id (None when the readings ran out inside a spin), the fields
      afterwards and the readings left. */
  datatype IdResult = IdResult(id: Option<int>, worker: Worker, clock: seq<int>)

  /** Lines 44-45: record the timestamp and pack the id. */
  function Emit(w: Worker, ts: int, clock: seq<int>): IdResult {
    var w' := w.(lastTimestamp := ts);
    IdResult(Some(LastId(w')), w', clock)
  }

  /** Lines 38-45, for a reading `ts` that is not before the last timestamp. */
  function Advance(w: Worker, ts: int, clock: seq<int>): IdResult {
    if ts == w.lastTimestamp then
      var sq := (w.sequence + 1) % (SequenceMask + 1);
      if sq == 0 then
        var (t2, rest) := TilNext(clock, w.lastTimestamp);
        if t2.None? then IdResult(None, w.(sequence := 0), rest) else Emit(w.(sequence := 0), t2.value, rest)
      else Emit(w.(sequence := sq), ts, clock)
    else Emit(w.(sequence := 0), ts, clock)
  }

  /** get_id as a function of the fields and the clock. */
  function NextId(w: Worker, clock: seq<int>): IdResult {
    if clock == [] then IdResult(None, w, [])
    else if clock[0] < w.lastTimestamp then
      var (t1, rest) := TilNext(clock[1..], w.lastTimestamp);
      if t1.None? then IdResult(None, w, rest) else Advance(w, t1.value, rest)
    else Advance(w, clock[0], clock[1..])
  }

  /** Every call keeps the sequence in [0, 4095] and the ids fixed; a successful call never moves the
      last timestamp back, and it moves (last timestamp, sequence) strictly forward: within the same
      millisecond the sequence goes up by exactly one, in a later millisecond it restarts at 0, and
      when it wraps to 0 the timestamp has moved past the old one. */
  lemma NextIdAdvances(w: Worker, clock: seq<int>)
    requires ValidWorker(w)
    ensures var r := NextId(w, clock);
            && ValidWorker(r.worker)
            && r.worker.datacenterId == w.datacenterId && r.worker.workerId == w.workerId && r.worker.epoch == w.epoch
            && (r.id.Some? ==>
                  && r.id.value == LastId(r.worker)
                  && r.worker.lastTimestamp >= w.lastTimestamp
                  && (r.worker.lastTimestamp == w.lastTimestamp ==> r.worker.sequence == w.sequence + 1)
                  && (r.worker.lastTimestamp > w.lastTimestamp ==> r.worker.sequence == 0))
  {
  }

  /** Hence every id is larger than the one before it. */
  lemma NextIdIncreases(w: Worker, clock: seq<int>)
    requires ValidWorker(w) && NextId(w, clock).id.Some?
    ensures NextId(w, clock).id.value > LastId(w)
  {
    NextIdAdvances(w, clock);
    var w' := NextId(w, clock).worker;
    ComposeMonotone(w.lastTimestamp - w.epoch, w.sequence, w'.lastTimestamp - w.epoch, w'.sequence,
                    w.datacenterId, w.workerId);
  }

  /** Two successive calls return strictly increasing ids. */
  lemma SuccessiveIdsIncrease(w: Worker, clock: seq<int>)
    requires ValidWorker(w)
    requires var r := NextId(w, clock); r.id.Some? && NextId(r.worker, r.clock).id.Some?
    ensures var r := NextId(w, clock); NextId(r.worker, r.clock).id.value > r.id.value
  {
    var r := NextId(w, clock);
    NextIdAdvances(w, clock);
    NextIdIncreases(r.worker, r.clock);
  }

  /** The continuation of _til_next_millis after a reading `ts` (None once the clock has run out). */
  function Continue(ts: Option<int>, clock: seq<int>, last: int): (Option<int>, seq<int>) {
    match ts
    case None => (None, [])
    case Some(t) => if t > last then (Some(t), clock) else TilNext(clock, last)
  }

  class SnowflakeIdWorker {
    var datacenterId: int
    var workerId: int
    var sequence: int
    var epoch: int
    var lastTimestamp: int
    /** The readings _time_gen has not returned yet. */
    var clock: seq<int>

    function Fields(): Worker
      reads this
    {
      Worker(datacenterId, workerId, sequence, epoch, lastTimestamp)
    }

    predicate Valid()
      reads this
    {
      ValidWorker(Fields())
    }

    /** __init__: both ids are masked to 5 bits (Python's `&` with 31, a remainder that is never
        negative), the sequence starts at 0 and the last timestamp at -1. */
    constructor(datacenter: int, worker: int, epochMs: int, readings: seq<int>)
      ensures Valid()
      ensures datacenterId == datacenter % (MaxDatacenterId + 1) && workerId == worker % (MaxWorkerId + 1)
      ensures sequence == 0 && epoch == epochMs && lastTimestamp == -1 && clock == readings
    {
      datacenterId := datacenter % (MaxDatacenterId + 1);
      workerId := worker % (MaxWorkerId + 1);
      sequence := 0;
      epoch := epochMs;
      lastTimestamp := -1;
      clock := readings;
    }

    /** _time_gen: the next reading. */
    method TimeGen() returns (ts: Option<int>)
      modifies this
      ensures Fields() == old(Fields())
      ensures old(clock) == [] ==> ts.None? && clock == []
      ensures old(clock) != [] ==> ts == Some(old(clock)[0]) && clock == old(clock)[1..]
    {
      if clock == [] {
        ts := None;
      } else {
        ts := Some(clock[0]);
        clock := clock[1..];
      }
    }

    /** _til_next_millis: read until a reading is past `lastTs`. */
    method TilNextMillis(lastTs: int) returns (ts: Option<int>)
      modifies this
      ensures Fields() == old(Fields())
      ensures (ts, clock) == TilNext(old(clock), lastTs)
    {
      ts := TimeGen();
      while ts.Some? && ts.value <= lastTs
        invariant Fields() == old(Fields())
        invariant ts.None? ==> clock == []
        invariant Continue(ts, clock, lastTs) == TilNext(old(clock), lastTs)
        decreases |clock| + (if ts.Some? then 1 else 0)
      {
        ts := TimeGen();
      }
    }

    /** get_id: lines 35-37 read a timestamp not before the last one; StepSequence does the rest. */
    method GetId() returns (id: Option<int>)
      requires Valid()
      modifies this
      ensures Valid()
      ensures var r := NextId(old(Fields()), old(clock));
              id == r.id && Fields() == r.worker && clock == r.clock
    {
      var t := TimeGen();
      if t.None? {
        return None;
      }
      var ts := t.value;
      if ts < lastTimestamp {
        var t1 := TilNextMillis(lastTimestamp);
        if t1.None? {
          return None;
        }
        ts := t1.value;
      }
      id := StepSequence(ts);
    }

    /** Lines 38-45 of get_id, for the reading `ts`: bump or restart the sequence, wait for the
        next millisecond when it wraps, record the timestamp and pack the id. */
    method StepSequence(ts: int) returns (id: Option<int>)
      requires Valid()
      modifies this
      ensures Valid()
      ensures var r := Advance(old(Fields()), ts, old(clock));
              id == r.id && Fields() == r.worker && clock == r.clock
    {
      var now := ts;
      if now == lastTimestamp {
        sequence := (sequence + 1) % (SequenceMask + 1);
        if sequence == 0 {
          var t2 := TilNextMillis(lastTimestamp);
          if t2.None? {
            return None;
          }
          now := t2.value;
        }
      } else {
        sequence := 0;
      }
      lastTimestamp := now;
      id := Some(Compose(now - epoch, datacenterId, workerId, sequence));
    }
  }
}
