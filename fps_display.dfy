/** `FPSDisplay`'s display format: the numeric format string "0" or "0."
    followed by one '0' per decimal digit, rebuilt whenever the number of
    decimals changes. */
module FpsDisplay {
  import opened Wrappers
  import opened Text

  const Int32Min: int := -0x8000_0000
  const Int32Max: int := 0x7fff_ffff

  /** A C# `int`. */
  type Int32 = x: int | -0x8000_0000 <= x <= 0x7fff_ffff

  /** Unchecked 32-bit two's-complement wrap-around, C#'s default for `int`
      arithmetic. */
  function Wrap32(x: int): (r: Int32)
    ensures Int32Min <= x <= Int32Max ==> r == x
    ensures Int32Max < x <= Int32Max + 0x1_0000_0000 ==> r == x - 0x1_0000_0000
  {
    (x - Int32Min) % 0x1_0000_0000 + Int32Min
  }

  /** The capacity `SetDisplayFormat` passes to the builder: one digit, the
      decimals, and the point when there are decimals, all in `int`. */
  function Capacity(decimals: Int32): Int32
  {
    var length := Wrap32(1 + decimals);
    if decimals > 0 then Wrap32(length + 1) else length
  }

  /** `new StringBuilder(capacity)` throws for a negative capacity. */
  datatype FormatError = CapacityOutOfRange(capacity: int)

  /** The format string for a number of decimals, or the error the
      builder's constructor raises. */
  function DisplayFormat(decimals: Int32): Result<string, FormatError>
  {
    var capacity := Capacity(decimals);
    if capacity < 0 then Failure(CapacityOutOfRange(capacity))
    else if decimals > 0 then Success("0." + Repeat("0", decimals))
    else Success("0")
  }

  /** The capacity is exactly the formatted length for -1 up to
      `int.MaxValue - 2` decimals, and negative everywhere else: below -1,
      and at the top two values, where the sum wraps around. */
  lemma CapacityNegative(decimals: Int32)
    ensures Capacity(decimals) < 0 <==> decimals < -1 || decimals >= Int32Max - 1
    ensures -1 <= decimals <= Int32Max - 2 ==>
      Capacity(decimals) == 1 + decimals + (if decimals > 0 then 1 else 0)
  {
    if decimals == Int32Max {
      assert Wrap32(1 + decimals) == Int32Min;
    }
  }

  /** With no decimals (or -1) the format is the single digit "0". */
  lemma WholeNumberFormat(decimals: Int32)
    requires decimals == -1 || decimals == 0
    ensures DisplayFormat(decimals) == Success("0")
  {
    CapacityNegative(decimals);
  }

  /** With decimals the format is "0." followed by exactly that many '0's,
      and its length is the capacity computed up front. */
  lemma {:induction false} DecimalFormat(decimals: Int32)
    requires 0 < decimals <= Int32Max - 2
    ensures DisplayFormat(decimals).Success?
    ensures var s := DisplayFormat(decimals).value;
      |s| == decimals + 2 == Capacity(decimals) && s[..2] == "0." &&
      forall k :: 2 <= k < |s| ==> s[k] == '0'
  {
    CapacityNegative(decimals);
    RepeatChar('0', decimals);
    var s := DisplayFormat(decimals).value;
    assert s == "0." + Repeat("0", decimals);
    forall k | 2 <= k < |s|
      ensures s[k] == '0'
    {
      assert s[k] == Repeat("0", decimals)[k - 2];
    }
  }

  /** Every number of decimals below -1 fails: the capacity is negative. */
  lemma NegativeDecimalsFail(decimals: Int32)
    requires decimals < -1
    ensures DisplayFormat(decimals) == Failure(CapacityOutOfRange(1 + decimals))
  {
    CapacityNegative(decimals);
  }

  /** The field after a recomputation: the new format, or the old one when
      building it threw. */
  function Recomputed(decimals: Int32, displayFormat: Option<string>): Option<string>
  {
    match DisplayFormat(decimals)
    case Success(s) => Some(s)
    case Failure(_) => displayFormat
  }

  /** Recomputing from the same decimals a second time changes nothing, so
      repeated `Awake`/`OnValidate` calls agree with one. */
  lemma RecomputeIdempotent(decimals: Int32, displayFormat: Option<string>)
    ensures Recomputed(decimals, Recomputed(decimals, displayFormat)) == Recomputed(decimals, displayFormat)
    ensures DisplayFormat(decimals).Success? ==>
      Recomputed(decimals, displayFormat) == Recomputed(decimals, None)
  {
  }

  class FPSDisplay {
    /** The serialized `_decimals`, read and written through `decimals`. */
    var decimals: Int32
    /** `null` until the format is first built. */
    var displayFormat: Option<string>

    constructor ()
      ensures decimals == 0 && displayFormat == None
    {
      decimals := 0;
      displayFormat := None;
    }

    /** `SetDisplayFormat(decimals)`: on success the field holds the new
        format; when the builder throws, the exception is returned and the
        field keeps its old value. */
    method SetDisplayFormat(decimals: Int32) returns (thrown: Option<FormatError>)
      modifies this
      ensures this.decimals == old(this.decimals)
      ensures displayFormat == Recomputed(decimals, old(displayFormat))
      ensures thrown.Some? <==> DisplayFormat(decimals).Failure?
      ensures thrown.Some? ==> thrown.value == DisplayFormat(decimals).error
    {
      var length: int := Wrap32(1 + decimals);
      if decimals > 0 {
        length := Wrap32(length + 1);
      }
      assert length == Capacity(decimals);
      if length < 0 {
        return Some(CapacityOutOfRange(length));
      }
      var builder := new StringBuilder(length);
      builder.Append("0");
      assert builder.chars == "0";
      if decimals > 0 {
        builder.Append(".");
        assert builder.chars == "0.";
        builder.Insert(2, "0", decimals);
        assert builder.chars == "0." + Repeat("0", decimals);
      }
      assert DisplayFormat(decimals) == Success(builder.chars);
      displayFormat := Some(builder.ToString());
      thrown := None;
    }

    /** The `decimals` setter: stores the value first, then rebuilds the
        format, so a throwing rebuild leaves the new value beside the old
        format. */
    method SetDecimals(value: Int32) returns (thrown: Option<FormatError>)
      modifies this
      ensures decimals == value
      ensures displayFormat == Recomputed(value, old(displayFormat))
      ensures thrown.Some? <==> DisplayFormat(value).Failure?
    {
      decimals := value;
      thrown := SetDisplayFormat(value);
    }

    /** `Awake` and `OnValidate`: rebuild the format from the stored
        decimals. */
    method Awake() returns (thrown: Option<FormatError>)
      modifies this
      ensures decimals == old(decimals)
      ensures displayFormat == Recomputed(decimals, old(displayFormat))
      ensures thrown.Some? <==> DisplayFormat(decimals).Failure?
    {
      thrown := SetDisplayFormat(decimals);
    }

    method OnValidate() returns (thrown: Option<FormatError>)
      modifies this
      ensures decimals == old(decimals)
      ensures displayFormat == Recomputed(decimals, old(displayFormat))
      ensures thrown.Some? <==> DisplayFormat(decimals).Failure?
    {
      thrown := SetDisplayFormat(decimals);
    }
  }
}
