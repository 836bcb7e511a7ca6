/**
  The `Resistor` class of resistor.py: a resistance, a tolerance, the
  four-band colour code and the bounds resistance * (1 -/+ tolerance), kept in
  five fields that the `resistance`, `tolerance` and `code` setters and the
  constructor assign one after another. A setter that raises has already
  assigned the fields before the failing line; the model keeps those partial
  updates.
*/
module Resistors {
  import opened Results
  import opened ColorCode
  import opened Codec

  /** The tolerance the constructor falls back to (line 143). */
  const DefaultTolerance: real := 0.05

  /** `tolerance or 0.05`: a missing tolerance and a zero one are both falsy in Python. */
  function InitialTolerance(tolerance: Option<real>): (t: real)
    ensures t != 0.0
    ensures tolerance.Some? && tolerance.value != 0.0 ==> t == tolerance.value
    ensures tolerance.None? || tolerance.value == 0.0 ==> t == DefaultTolerance
  {
    if tolerance.None? || tolerance.value == 0.0 then DefaultTolerance else tolerance.value
  }

  /** Line 111: the lower bound r * (1 - t), in ohms. */
  function MinBound(r: Number, t: real): (b: real)
    ensures Centiohms(r) >= 0 && t >= 0.0 ==> b <= Ohms(r)
    ensures Centiohms(r) >= 0 && t <= 1.0 ==> b >= 0.0
  {
    Ohms(r) * (1.0 - t)
  }

  /** Line 112: the upper bound r * (1 + t), in ohms. */
  function MaxBound(r: Number, t: real): (b: real)
    ensures Centiohms(r) >= 0 && t >= 0.0 ==> b >= Ohms(r)
  {
    Ohms(r) * (1.0 + t)
  }

  /** Under either tolerance of the table the bounds bracket r symmetrically, t * r on each side. */
  lemma BoundsBracket(r: Number, t: real)
    requires Centiohms(r) >= 0 && ToleranceColor(t).Some?
    ensures MinBound(r, t) <= Ohms(r) <= MaxBound(r, t)
    ensures Ohms(r) - MinBound(r, t) == MaxBound(r, t) - Ohms(r) == t * Ohms(r)
  {
  }

  /** What may be assigned to `code`: a tuple of colours, or any other Python value. */
  datatype CodeArgument = Tuple(bands: seq<Color>) | NotATuple

  class Resistor {
    /** `_resistance`; absent until a resistance is first assigned. */
    var resistance: Option<Number>
    /** `_tolerance`, a fraction; the setter accepts any number. */
    var tolerance: real
    /** `_code`, the four bands. */
    var code: Option<seq<Color>>
    /** `_min_resistance` and `_max_resistance`, in ohms. */
    var minResistance: Option<real>
    var maxResistance: Option<real>

    /** Code and bounds are the ones the present resistance and tolerance call for. */
    predicate Consistent()
      reads this
    {
      && resistance.Some? && code.Some? && minResistance.Some? && maxResistance.Some?
      && Encode(resistance.value, tolerance) == Success(code.value)
      && minResistance.value == MinBound(resistance.value, tolerance)
      && maxResistance.value == MaxBound(resistance.value, tolerance)
    }

    /** Lines 140-143: no code, no bounds, and the tolerance given or 0.05. */
    constructor (tolerance: Option<real>)
      ensures this.tolerance == InitialTolerance(tolerance)
      ensures resistance.None? && code.None? && minResistance.None? && maxResistance.None?
    {
      code := None;
      minResistance := None;
      maxResistance := None;
      this.tolerance := InitialTolerance(tolerance);
      resistance := None;
    }

    /**
      `Resistor(resistance, tolerance)` (lines 139-145): the constructor, then
      the `resistance` setter when a resistance is given; an exception from
      the setter is the result, and no object reaches the caller.
    */
    static method New(resistance: Option<Number>, tolerance: Option<real>) returns (result: Result<Resistor, Error>)
      ensures result.Success? ==> fresh(result.value) && result.value.tolerance == InitialTolerance(tolerance)
      ensures resistance.None? ==>
        && result.Success?
        && result.value.resistance.None? && result.value.code.None?
        && result.value.minResistance.None? && result.value.maxResistance.None?
      ensures resistance.Some? ==>
        match Encode(resistance.value, InitialTolerance(tolerance))
        case Success(bands) =>
          && result.Success? && result.value.resistance == resistance
          && result.value.code == Some(bands) && result.value.Consistent()
        case Failure(e) => result == Failure(e)
    {
      var r := new Resistor(tolerance);
      if resistance.Some? {
        var err := r.SetResistance(resistance.value);
        if err.Some? {
          return Failure(err.value);
        }
      }
      result := Success(r);
    }

    /**
      The `resistance` setter (lines 83-112). A negative value raises
      ValueError before anything is assigned. Otherwise the resistance is
      stored first; when the code cannot be formed (see EncodeOutcome) the
      exception leaves code and bounds as they were; else code and bounds are
      set from the resistance and the current tolerance.
    */
    method SetResistance(r: Number) returns (err: Option<Error>)
      modifies this
      ensures tolerance == old(tolerance)
      ensures Centiohms(r) < 0 ==> err == Some(ValueError) && unchanged(this)
      ensures Centiohms(r) >= 0 ==> resistance == Some(r)
      ensures Centiohms(r) >= 0 && Encode(r, tolerance).Failure? ==>
        && err == Some(Encode(r, tolerance).error)
        && code == old(code) && minResistance == old(minResistance) && maxResistance == old(maxResistance)
      ensures Encode(r, tolerance).Success? ==>
        && err == None
        && code == Some(Encode(r, tolerance).value)
        && minResistance == Some(MinBound(r, tolerance))
        && maxResistance == Some(MaxBound(r, tolerance))
      ensures err == None <==> Encode(r, tolerance).Success?
      ensures err == None ==> Consistent() && minResistance.value <= Ohms(r) <= maxResistance.value
    {
      if Centiohms(r) < 0 {
        return Some(ValueError);
      }
      resistance := Some(r);
      var bands := Encode(r, tolerance);
      if bands.Failure? {
        return Some(bands.error);
      }
      code := Some(bands.value);
      minResistance := Some(MinBound(r, tolerance));
      maxResistance := Some(MaxBound(r, tolerance));
      EncodeOutcome(r, tolerance);
      BoundsBracket(r, tolerance);
      err := None;
    }

    /**
      The `tolerance` setter (lines 119-120) stores the tolerance and nothing
      else: code and bounds keep the old tolerance, so a consistent resistor
      stops being consistent when band 4 would change.
    */
    method SetTolerance(t: real)
      modifies this
      ensures tolerance == t
      ensures resistance == old(resistance) && code == old(code)
      ensures minResistance == old(minResistance) && maxResistance == old(maxResistance)
      ensures old(Consistent()) && ToleranceColor(t) != ToleranceColor(old(tolerance)) ==> !Consistent()
    {
      if Consistent() && ToleranceColor(t).Some? {
        EncodeToleranceBand(resistance.value, tolerance, t);
        EncodeCanonical(resistance.value, tolerance);
      }
      tolerance := t;
    }

    /**
      The `code` setter (lines 127-137). A non-tuple raises TypeError and a
      tuple of length other than 4 ValueError, with nothing assigned.
      Otherwise the tuple is stored as the code, the resistance setter runs
      on the decoded value, and only then is the tolerance read from band 4:
      the code and bounds the resistance setter leaves are those of the
      tolerance in force before the call.
    */
    method SetCode(value: CodeArgument) returns (err: Option<Error>)
      modifies this
      ensures value.NotATuple? ==> err == Some(TypeError) && unchanged(this)
      ensures value.Tuple? && |value.bands| != 4 ==> err == Some(ValueError) && unchanged(this)
      ensures value.Tuple? && |value.bands| == 4 ==>
        var bands, v, t0 := value.bands, CodeValue(value.bands), old(tolerance);
        && (Centiohms(v) < 0 ==>
              && err == Some(ValueError) && code == Some(bands)
              && resistance == old(resistance) && tolerance == t0
              && minResistance == old(minResistance) && maxResistance == old(maxResistance))
        && (Centiohms(v) >= 0 && Encode(v, t0).Failure? ==>
              && err == Some(Encode(v, t0).error) && code == Some(bands)
              && resistance == Some(v) && tolerance == t0
              && minResistance == old(minResistance) && maxResistance == old(maxResistance))
        && (Encode(v, t0).Success? ==>
              && resistance == Some(v) && code == Some(Encode(v, t0).value)
              && minResistance == Some(MinBound(v, t0)) && maxResistance == Some(MaxBound(v, t0))
              && (ToleranceOf(bands[3]).None? ==> err == Some(KeyError) && tolerance == t0)
              && (ToleranceOf(bands[3]).Some? ==> err == None && tolerance == ToleranceOf(bands[3]).value))
      ensures value.Tuple? && Canonical(value.bands) && ToleranceColor(old(tolerance)).Some? ==>
        var bands := value.bands;
        && err == None
        && resistance == Some(CodeValue(bands))
        && code == Some([bands[0], bands[1], bands[2], ToleranceColor(old(tolerance)).value])
        && tolerance == ToleranceOf(bands[3]).value
      ensures value.Tuple? && Canonical(value.bands) && ToleranceColor(old(tolerance)) == Some(value.bands[3]) ==>
        err == None && code == Some(value.bands) && tolerance == old(tolerance) && Consistent()
      ensures (value.Tuple? && Canonical(value.bands) && ToleranceColor(old(tolerance)).Some? &&
               ToleranceColor(old(tolerance)) != Some(value.bands[3])) ==>
        !Consistent()
    {
      if value.NotATuple? {
        return Some(TypeError);
      }
      if |value.bands| != 4 {
        return Some(ValueError);
      }
      var bands := value.bands;
      code := Some(bands);
      var v := CodeValue(bands);
      ghost var t0 := tolerance;
      if Canonical(bands) && ToleranceColor(t0).Some? {
        RoundTrip(bands);
        EncodeToleranceBand(v, ToleranceOf(bands[3]).value, t0);
        EncodeCanonical(v, t0);
        assert bands == [bands[0], bands[1], bands[2], bands[3]];
      }
      err := SetResistance(v);
      if err.Some? {
        return;
      }
      var t := ToleranceOf(bands[3]);
      if t.None? {
        return Some(KeyError);
      }
      tolerance := t.value;
    }
  }
}
