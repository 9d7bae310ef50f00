/**
 * The `VARIANCE`/`VAR_SAMP` and `VAR_POP` aggregates: their argument and
 * return types, and the bookkeeping of the accumulator. The accumulator
 * keeps a count and two floating-point moments, the running mean and `m2`
 * (Welford's sum of squared deviations). The moments are opaque 64-bit
 * patterns here: the model says only when they are copied, replaced by
 * what the (foreign) floating-point arithmetic produced, or left as they
 * were.
 */
module VarianceAgg {
  import opened Errors
  import Text

  // ---------------------------------------------------------------------
  // Types

  datatype DataType =
    | Int8 | Int16 | Int32 | Int64
    | UInt8 | UInt16 | UInt32 | UInt64
    | Float32 | Float64
    | Boolean | Utf8 | Date32
    | Decimal(precision: nat, scale: nat)

  /** The `{:?}` rendering of a data type. */
  function DebugName(t: DataType): string {
    match t
    case Int8 => "Int8"
    case Int16 => "Int16"
    case Int32 => "Int32"
    case Int64 => "Int64"
    case UInt8 => "UInt8"
    case UInt16 => "UInt16"
    case UInt32 => "UInt32"
    case UInt64 => "UInt64"
    case Float32 => "Float32"
    case Float64 => "Float64"
    case Boolean => "Boolean"
    case Utf8 => "Utf8"
    case Date32 => "Date32"
    case Decimal(p, s) => "Decimal(" + Text.NatToString(p) + ", " + Text.NatToString(s) + ")"
  }

  /** The argument types VARIANCE accepts: the eight integer and the two float types. */
  predicate IsVarianceSupportArgType(t: DataType) {
    match t
    case UInt8 | UInt16 | UInt32 | UInt64 => true
    case Int8 | Int16 | Int32 | Int64 => true
    case Float32 | Float64 => true
    case _ => false
  }

  function VarianceReturnType(t: DataType): (r: Result<DataType>)
    ensures r.Ok? <==> IsVarianceSupportArgType(t)
    ensures r.Ok? ==> r.value == Float64
    ensures r.Err? ==> r.error == Plan("VARIANCE does not support " + DebugName(t))
  {
    match t
    case Int8 | Int16 | Int32 | Int64 | UInt8 | UInt16 | UInt32 | UInt64 | Float32 | Float64 => Ok(Float64)
    case _ => Err(Plan("VARIANCE does not support " + DebugName(t)))
  }

  /** Float64 is accepted and mapped to Float64; `Decimal(36, 10)` is rejected, naming the type. */
  lemma TwoDigitNumerals()
    ensures Text.NatToString(36) == "36" && Text.NatToString(10) == "10"
  {
    assert Text.NatToString(3) == "3" && Text.NatToString(6) == "6";
    assert Text.NatToString(1) == "1" && Text.NatToString(0) == "0";
  }

  lemma DecimalName()
    ensures DebugName(Decimal(36, 10)) == "Decimal(36, 10)"
  {
    TwoDigitNumerals();
  }

  lemma DecimalMessage()
    ensures "VARIANCE does not support " + DebugName(Decimal(36, 10)) == "VARIANCE does not support Decimal(36, 10)"
  {
    DecimalName();
  }

  lemma ReturnTypeExamples()
    ensures VarianceReturnType(Float64) == Ok(Float64)
    ensures VarianceReturnType(Decimal(36, 10)) == Err(Plan("VARIANCE does not support Decimal(36, 10)"))
  {
    DecimalMessage();
  }

  /** The aggregate expressions; `Variance` is the sample variance, `VariancePop` the population variance. */
  datatype VarianceExpr = Variance(name: string) | VariancePop(name: string)

  /** The panic of the `assert!` on the result type in both constructors. */
  const NotFloat64 := Panic("assertion failed: matches!(data_type, DataType::Float64)")

  function NewVariance(name: string, dataType: DataType): (r: Result<VarianceExpr>)
    ensures r.Ok? <==> dataType == Float64
    ensures r.Ok? ==> r.value == Variance(name)
    ensures r.Err? ==> r.error == NotFloat64
  {
    if dataType.Float64? then Ok(Variance(name)) else Err(NotFloat64)
  }

  function NewVariancePop(name: string, dataType: DataType): (r: Result<VarianceExpr>)
    ensures r.Ok? <==> dataType == Float64
    ensures r.Ok? ==> r.value == VariancePop(name)
    ensures r.Err? ==> r.error == NotFloat64
  {
    if dataType.Float64? then Ok(VariancePop(name)) else Err(NotFloat64)
  }

  /** The types of the three intermediate state fields: count, mean, m2. */
  function StateFieldTypes(e: VarianceExpr): (types: seq<DataType>)
    ensures |types| == 3 && types[0] == UInt64 && types[1] == Float64 && types[2] == Float64
  {
    [UInt64, Float64, Float64]
  }

  // ---------------------------------------------------------------------
  // Values

  /** An IEEE 754 double, by its bit pattern. */
  datatype F64 = F64(bits: bv64)

  const Zero := F64(0)

  /** `x == 0_f64`, which holds for both zeros. */
  predicate IsZero(x: F64) {
    x.bits & 0x7FFF_FFFF_FFFF_FFFF == 0
  }

  /** A scalar: the two kinds the accumulator produces and reads, and any other typed value. */
  datatype ScalarValue =
    | UInt64Value(u: Option<nat>)
    | Float64Value(f: Option<F64>)
    | OtherValue(dataType: DataType, isNull: bool)

  predicate IsNull(v: ScalarValue) {
    match v
    case UInt64Value(u) => u.None?
    case Float64Value(f) => f.None?
    case OtherValue(_, isNull) => isNull
  }

  function TypeOf(v: ScalarValue): DataType {
    match v
    case UInt64Value(_) => UInt64
    case Float64Value(_) => Float64
    case OtherValue(t, _) => t
  }

  /** The accumulator's state: how many values were counted, and the two opaque moments. */
  datatype Moments = Moments(count: nat, mean: F64, m2: F64)

  /** One slot of the input column after its cast to Float64. */
  datatype Slot = Slot(value: F64, isNull: bool)

  /** The panics of the accumulator: an `unreachable!()` and an index past the end of a slice. */
  const Unreachable := Panic("internal error: entered unreachable code")
  const IndexOutOfBounds := Panic("index out of bounds")

  const TooFewValues := Internal("At least two values are needed to calculate variance")

  // ---------------------------------------------------------------------
  // update_batch

  /** A slot `update_batch` passes over: null with a zero value. */
  predicate Skipped(s: Slot) {
    IsZero(s.value) && s.isNull
  }

  /** The number of slots `update_batch` counts. */
  function CountedSlots(slots: seq<Slot>): nat {
    if |slots| == 0 then 0
    else CountedSlots(slots[..|slots| - 1]) + (if Skipped(slots[|slots| - 1]) then 0 else 1)
  }

  /** All slots counted exactly when none is skipped; none counted exactly when all are. */
  lemma {:induction false} CountedSlotsBounds(slots: seq<Slot>)
    ensures CountedSlots(slots) <= |slots|
    ensures CountedSlots(slots) == |slots| <==> forall i :: 0 <= i < |slots| ==> !Skipped(slots[i])
    ensures CountedSlots(slots) == 0 <==> forall i :: 0 <= i < |slots| ==> Skipped(slots[i])
    decreases |slots|
  {
    if |slots| > 0 {
      var init := slots[..|slots| - 1];
      CountedSlotsBounds(init);
      assert forall i :: 0 <= i < |init| ==> init[i] == slots[i];
    }
  }

  /** `update_batch` over `slots`: each counted slot adds one to the count and replaces the moments by `step`. */
  function UpdateAll(m: Moments, slots: seq<Slot>, step: (Moments, F64) -> (F64, F64)): Moments {
    if |slots| == 0 then m
    else
      var before := UpdateAll(m, slots[..|slots| - 1], step);
      var s := slots[|slots| - 1];
      if Skipped(s) then before
      else
        var (mean, m2) := step(before, s.value);
        Moments(before.count + 1, mean, m2)
  }

  /** The count grows by the counted slots; a batch with nothing counted changes nothing. */
  lemma {:induction false} UpdateAllCount(m: Moments, slots: seq<Slot>, step: (Moments, F64) -> (F64, F64))
    ensures UpdateAll(m, slots, step).count == m.count + CountedSlots(slots)
    ensures CountedSlots(slots) == 0 ==> UpdateAll(m, slots, step) == m
    decreases |slots|
  {
    if |slots| > 0 {
      UpdateAllCount(m, slots[..|slots| - 1], step);
    }
  }

  // ---------------------------------------------------------------------
  // merge_batch

  function SumCounts(rows: seq<Moments>): nat {
    if |rows| == 0 then 0 else SumCounts(rows[..|rows| - 1]) + rows[|rows| - 1].count
  }

  /** `merge_batch` over state rows: a row with count 0 is passed over, any other adds its count and replaces the moments by `step`. */
  function MergeAll(m: Moments, rows: seq<Moments>, step: (Moments, Moments) -> (F64, F64)): Moments {
    if |rows| == 0 then m
    else
      var before := MergeAll(m, rows[..|rows| - 1], step);
      var row := rows[|rows| - 1];
      if row.count == 0 then before
      else
        var (mean, m2) := step(before, row);
        Moments(before.count + row.count, mean, m2)
  }

  /** The final count is the initial count plus all incoming counts; all-zero rows change nothing. */
  lemma {:induction false} MergeAllCount(m: Moments, rows: seq<Moments>, step: (Moments, Moments) -> (F64, F64))
    ensures MergeAll(m, rows, step).count == m.count + SumCounts(rows)
    ensures SumCounts(rows) == 0 ==> MergeAll(m, rows, step) == m
    decreases |rows|
  {
    if |rows| > 0 {
      MergeAllCount(m, rows[..|rows| - 1], step);
    }
  }

  // ---------------------------------------------------------------------
  // update and merge of single scalars

  /** The float a result scalar must hold; any other scalar is unreachable. */
  predicate IsSomeFloat(v: ScalarValue) {
    v.Float64Value? && v.f.Some?
  }

  /**
   * `update` with one row of scalars: a null value changes nothing; otherwise
   * `arith` is the scalar Welford step, which may fail before anything
   * changes; the count is raised before its two results are unpacked.
   */
  function UpdateScalar(m: Moments, values: seq<ScalarValue>,
                        arith: (Moments, ScalarValue) -> Result<(ScalarValue, ScalarValue)>): (r: (Result<()>, Moments))
    ensures |values| == 0 ==> r == (Err(IndexOutOfBounds), m)
    ensures |values| > 0 && IsNull(values[0]) ==> r == (Ok(()), m)
    ensures |values| > 0 && !IsNull(values[0]) ==>
      (arith(m, values[0]).Err? ==> r == (Err(arith(m, values[0]).error), m))
      && (arith(m, values[0]).Ok? ==> r.1.count == m.count + 1)
    ensures r.0.Ok? ==> r.1.count == m.count || r.1.count == m.count + 1
  {
    if |values| == 0 then (Err(IndexOutOfBounds), m)
    else if IsNull(values[0]) then (Ok(()), m)
    else match arith(m, values[0])
      case Err(e) => (Err(e), m)
      case Ok((newMean, newM2)) =>
        var count := m.count + 1;
        if !IsSomeFloat(newMean) then (Err(Unreachable), Moments(count, m.mean, m.m2))
        else if !IsSomeFloat(newM2) then (Err(Unreachable), Moments(count, newMean.f.value, m.m2))
        else (Ok(()), Moments(count, newMean.f.value, newM2.f.value))
  }

  /**
   * `merge` with one state row: an incoming count of 0 changes nothing; an
   * empty accumulator takes the incoming state verbatim; otherwise the counts add
   * up and `arith`, the scalar merge of the moments, supplies the new moments.
   */
  function MergeScalar(m: Moments, states: seq<ScalarValue>,
                       arith: (Moments, Moments) -> Result<(ScalarValue, ScalarValue)>): (Result<()>, Moments)
  {
    if |states| == 0 then (Err(IndexOutOfBounds), m)
    else if !(states[0].UInt64Value? && states[0].u.Some?) then (Err(Unreachable), m)
    else
      var count := states[0].u.value;
      if count == 0 then (Ok(()), m)
      else if |states| < 2 then (Err(IndexOutOfBounds), m)
      else if !IsSomeFloat(states[1]) then (Err(Unreachable), m)
      else if |states| < 3 then (Err(IndexOutOfBounds), m)
      else if !IsSomeFloat(states[2]) then (Err(Unreachable), m)
      else
        var incoming := Moments(count, states[1].f.value, states[2].f.value);
        if m.count == 0 then (Ok(()), incoming)
        else match arith(m, incoming)
          case Err(e) => (Err(e), m)
          case Ok((newMean, newM2)) =>
            var total := m.count + count;
            if !IsSomeFloat(newMean) then (Err(Unreachable), Moments(total, m.mean, m.m2))
            else if !IsSomeFloat(newM2) then (Err(Unreachable), Moments(total, newMean.f.value, m.m2))
            else (Ok(()), Moments(total, newMean.f.value, newM2.f.value))
  }

  /** The state row of an accumulator, in the order of the state fields. */
  function EncodeState(m: Moments): seq<ScalarValue> {
    [UInt64Value(Some(m.count)), Float64Value(Some(m.mean)), Float64Value(Some(m.m2))]
  }

  /** The three merge cases, for a well-formed state row. */
  lemma MergeCases(m: Moments, incoming: Moments, arith: (Moments, Moments) -> Result<(ScalarValue, ScalarValue)>)
    ensures var r := MergeScalar(m, EncodeState(incoming), arith);
      (incoming.count == 0 ==> r == (Ok(()), m))
      && (incoming.count > 0 && m.count == 0 ==> r == (Ok(()), incoming))
      && (incoming.count > 0 && m.count > 0 ==>
            (arith(m, incoming).Err? ==> r == (Err(arith(m, incoming).error), m))
            && (arith(m, incoming).Ok? ==> r.1.count == m.count + incoming.count))
  {
  }

  /** Merging the state of any accumulator into an empty one reproduces that accumulator. */
  lemma {:induction false} MergeIntoEmptyCopies(mean: F64, m2: F64, other: Moments,
                                                 arith: (Moments, Moments) -> Result<(ScalarValue, ScalarValue)>)
    ensures other.count > 0 ==> MergeScalar(Moments(0, mean, m2), EncodeState(other), arith) == (Ok(()), other)
    ensures other.count == 0 ==> MergeScalar(Moments(0, mean, m2), EncodeState(other), arith).1.count == 0
  {
    MergeCases(Moments(0, mean, m2), other, arith);
  }

  // ---------------------------------------------------------------------
  // evaluate

  /** `evaluate`: divide `m2` by the count (population) or by one less (sample); too small a divisor is an error. */
  function Evaluate(statsType: StatsType, m: Moments, divide: (F64, nat) -> F64): (r: Result<ScalarValue>)
    ensures statsType.Population? ==> (r.Ok? <==> m.count >= 2)
    ensures statsType.Sample? ==> (r.Ok? <==> m.count >= 3)
    ensures r.Err? ==> r.error == TooFewValues
    ensures r.Ok? && statsType.Population? ==> r.value == Float64Value(Some(divide(m.m2, m.count)))
    ensures r.Ok? && statsType.Sample? ==> r.value == Float64Value(Some(divide(m.m2, m.count - 1)))
  {
    var divisor := match statsType
      case Population => m.count
      case Sample => if m.count > 0 then m.count - 1 else m.count;
    if divisor <= 1 then Err(TooFewValues)
    else if m.count == 0 then Ok(Float64Value(None))
    else Ok(Float64Value(Some(divide(m.m2, divisor))))
  }

  /** The rule the error message states: at least two values, for either statistic. */
  function EvaluateIntended(statsType: StatsType, m: Moments, divide: (F64, nat) -> F64): (r: Result<ScalarValue>)
    ensures r.Ok? <==> m.count >= 2
    ensures r.Err? ==> r.error == TooFewValues
    ensures r.Ok? && statsType.Population? ==> r.value == Float64Value(Some(divide(m.m2, m.count)))
    ensures r.Ok? && statsType.Sample? ==> r.value == Float64Value(Some(divide(m.m2, m.count - 1)))
  {
    var divisor := match statsType
      case Population => m.count
      case Sample => if m.count > 0 then m.count - 1 else m.count;
    if m.count < 2 then Err(TooFewValues)
    else Ok(Float64Value(Some(divide(m.m2, divisor))))
  }

  /** Two values are enough by the message, but the sample variance of two values is rejected. */
  lemma SampleOfTwoRejected(mean: F64, m2: F64, divide: (F64, nat) -> F64)
    ensures Evaluate(Sample, Moments(2, mean, m2), divide) == Err(TooFewValues)
    ensures EvaluateIntended(Sample, Moments(2, mean, m2), divide) == Ok(Float64Value(Some(divide(m2, 1))))
  {
  }

  /** The two agree everywhere else. */
  lemma {:induction false} EvaluateAgreesOtherwise(statsType: StatsType, m: Moments, divide: (F64, nat) -> F64)
    requires !(statsType.Sample? && m.count == 2)
    ensures Evaluate(statsType, m, divide) == EvaluateIntended(statsType, m, divide)
  {
  }

  /** A sample variance over one value, or over values that were all null, is an error. */
  lemma FewInputsRejected(mean: F64, m2: F64, one: F64, step: (Moments, F64) -> (F64, F64), divide: (F64, nat) -> F64)
    ensures Evaluate(Sample, UpdateAll(Moments(0, mean, m2), [Slot(one, false)], step), divide).Err?
    ensures Evaluate(Sample, UpdateAll(Moments(0, mean, m2), [Slot(Zero, true), Slot(Zero, true)], step), divide).Err?
  {
    UpdateAllCount(Moments(0, mean, m2), [Slot(one, false)], step);
    UpdateAllCount(Moments(0, mean, m2), [Slot(Zero, true), Slot(Zero, true)], step);
  }

  // ---------------------------------------------------------------------
  // The accumulator

  datatype StatsType = Sample | Population

  function StatsTypeOf(e: VarianceExpr): StatsType {
    match e
    case Variance(_) => Sample
    case VariancePop(_) => Population
  }

  class VarianceAccumulator {
    var m2: F64
    var mean: F64
    var count: nat
    const statsType: StatsType

    /** `try_new`: an empty accumulator for the given statistic. */
    constructor TryNew(sType: StatsType)
      ensures statsType == sType
      ensures count == 0 && mean == Zero && m2 == Zero
    {
      m2 := Zero;
      mean := Zero;
      count := 0;
      statsType := sType;
    }

    function Stats(): Moments
      reads this
    {
      Moments(count, mean, m2)
    }

    /** `state`: one value per state field, of that field's type, that merge reads back. */
    function State(): (r: seq<ScalarValue>)
      reads this
      ensures |r| == 3
      ensures forall e: VarianceExpr :: forall i :: 0 <= i < 3 ==> TypeOf(r[i]) == StateFieldTypes(e)[i]
      ensures r[0] == UInt64Value(Some(count)) && IsSomeFloat(r[1]) && IsSomeFloat(r[2])
      ensures r[1].f.value == mean && r[2].f.value == m2
    {
      EncodeState(Stats())
    }

    /** `update_batch`, given the outcome of casting the input column to Float64. */
    method UpdateBatch(cast: Result<seq<Slot>>, step: (Moments, F64) -> (F64, F64)) returns (r: Result<()>)
      modifies this
      ensures cast.Err? ==> r == Err(cast.error) && Stats() == old(Stats())
      ensures cast.Ok? ==> r == Ok(()) && Stats() == UpdateAll(old(Stats()), cast.value, step)
      ensures cast.Ok? ==> count == old(count) + CountedSlots(cast.value)
    {
      if cast.Err? {
        return Err(cast.error);
      }
      var slots := cast.value;
      ghost var start := Stats();
      var i := 0;
      while i < |slots|
        invariant 0 <= i <= |slots|
        invariant Stats() == UpdateAll(start, slots[..i], step)
      {
        assert slots[..i + 1][..i] == slots[..i];
        var value := slots[i].value;
        if !(IsZero(value) && slots[i].isNull) {
          var (newMean, newM2) := step(Stats(), value);
          count := count + 1;
          mean := newMean;
          m2 := newM2;
        }
        i := i + 1;
      }
      assert slots[..i] == slots;
      UpdateAllCount(start, slots, step);
      r := Ok(());
    }

    /** `merge_batch` over the rows of the state columns. */
    method MergeBatch(rows: seq<Moments>, step: (Moments, Moments) -> (F64, F64))
      modifies this
      ensures Stats() == MergeAll(old(Stats()), rows, step)
      ensures count == old(count) + SumCounts(rows)
    {
      ghost var start := Stats();
      var i := 0;
      while i < |rows|
        invariant 0 <= i <= |rows|
        invariant Stats() == MergeAll(start, rows[..i], step)
      {
        assert rows[..i + 1][..i] == rows[..i];
        var c := rows[i].count;
        if c != 0 {
          var (newMean, newM2) := step(Stats(), rows[i]);
          count := count + c;
          mean := newMean;
          m2 := newM2;
        }
        i := i + 1;
      }
      assert rows[..i] == rows;
      MergeAllCount(start, rows, step);
    }

    /** `update` with one row of scalars. */
    method Update(values: seq<ScalarValue>, arith: (Moments, ScalarValue) -> Result<(ScalarValue, ScalarValue)>)
      returns (r: Result<()>)
      modifies this
      ensures (r, Stats()) == UpdateScalar(old(Stats()), values, arith)
    {
      if |values| == 0 {
        return Err(IndexOutOfBounds);
      }
      var value := values[0];
      if !IsNull(value) {
        var stepped := arith(Stats(), value);
        if stepped.Err? {
          return Err(stepped.error);
        }
        var (newMean, newM2) := stepped.value;
        count := count + 1;
        if !IsSomeFloat(newMean) {
          return Err(Unreachable);
        }
        mean := newMean.f.value;
        if !IsSomeFloat(newM2) {
          return Err(Unreachable);
        }
        m2 := newM2.f.value;
      }
      r := Ok(());
    }

    /** `merge` with one state row. */
    method Merge(states: seq<ScalarValue>, arith: (Moments, Moments) -> Result<(ScalarValue, ScalarValue)>)
      returns (r: Result<()>)
      modifies this
      ensures (r, Stats()) == MergeScalar(old(Stats()), states, arith)
    {
      if |states| == 0 {
        return Err(IndexOutOfBounds);
      }
      var incomingCount: nat;
      match states[0] {
        case UInt64Value(Some(c)) => incomingCount := c;
        case _ => return Err(Unreachable);
      }
      if incomingCount == 0 {
        return Ok(());
      }
      if |states| < 2 {
        return Err(IndexOutOfBounds);
      }
      var incomingMean: F64;
      match states[1] {
        case Float64Value(Some(x)) => incomingMean := x;
        case _ => return Err(Unreachable);
      }
      if |states| < 3 {
        return Err(IndexOutOfBounds);
      }
      var incomingM2: F64;
      match states[2] {
        case Float64Value(Some(x)) => incomingM2 := x;
        case _ => return Err(Unreachable);
      }
      if count == 0 {
        count, mean, m2 := incomingCount, incomingMean, incomingM2;
        return Ok(());
      }
      var stepped := arith(Stats(), Moments(incomingCount, incomingMean, incomingM2));
      if stepped.Err? {
        return Err(stepped.error);
      }
      var (newMean, newM2) := stepped.value;
      count := count + incomingCount;
      if !IsSomeFloat(newMean) {
        return Err(Unreachable);
      }
      mean := newMean.f.value;
      if !IsSomeFloat(newM2) {
        return Err(Unreachable);
      }
      m2 := newM2.f.value;
      r := Ok(());
    }
  }

  /** `create_accumulator`: an empty accumulator of the expression's statistic. */
  method CreateAccumulator(e: VarianceExpr) returns (acc: VarianceAccumulator)
    ensures fresh(acc) && acc.statsType == StatsTypeOf(e) && acc.Stats() == Moments(0, Zero, Zero)
  {
    acc := new VarianceAccumulator.TryNew(StatsTypeOf(e));
  }
}
