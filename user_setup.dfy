/**
 * The user-setup screen of app/user_setup.tsx: the centimetre / feet-and-inches
 * conversions and the save rule that validates a height and a ground-to-belt length,
 * derives the belt-to-head length and carries the calibration value forward.
 * Numbers are idealised as exact reals.
 */
module UserSetup {
  import opened Wrappers
  import opened Domain

  /** Centimetres per inch. */
  const CmPerInch: real := 2.54

  /** `Math.round`: the nearest integer, a half rounding up. */
  function JsRound(x: real): (n: int)
    ensures x - 0.5 < n as real <= x + 0.5
  {
    (x + 0.5).Floor
  }

  /** `Math.trunc`: the integer part, rounding towards zero. */
  function JsTrunc(x: real): (n: int)
    ensures x >= 0.0 ==> n as real <= x < n as real + 1.0
    ensures x < 0.0 ==> x <= n as real <= 0.0 && n as real < x + 1.0
  {
    if x >= 0.0 then x.Floor else -((-x).Floor)
  }

  /** The `%` operator on numbers: the remainder of truncating division, carrying the dividend's sign. */
  function JsRem(a: real, b: real): (r: real)
    requires b > 0.0
    ensures a >= 0.0 ==> 0.0 <= r < b
    ensures a == b * JsTrunc(a / b) as real + r
  {
    var q := JsTrunc(a / b) as real;
    if a >= 0.0 then
      DivNonNegative(a, b);
      QuotientBounds(a, b, q);
      a - b * q
    else
      a - b * q
  }

  /** A quotient between q and q + 1 puts the dividend between q and q + 1 times the divisor. */
  lemma QuotientBounds(a: real, b: real, q: real)
    requires b > 0.0 && q <= a / b < q + 1.0
    ensures q * b <= a < q * b + b
  {
    var x := a / b;
    assert x * b == a;
    MulMonotone(q, x, b);
    MulMonotone(x, q + 1.0, b);
    calc {
      a;
      == x * b;
      < (q + 1.0) * b;
      == q * b + b;
    }
  }

  /** Dividing a non-negative number by a positive one gives a non-negative number. */
  lemma DivNonNegative(a: real, b: real)
    requires a >= 0.0 && b > 0.0
    ensures a / b >= 0.0
  {
  }

  /** Multiplying by a positive number keeps the order. */
  lemma MulMonotone(x: real, y: real, b: real)
    requires b > 0.0 && x <= y
    ensures x * b <= y * b && (x < y ==> x * b < y * b)
  {
  }

  /** A length split into whole feet and (rounded) inches, as the screen displays it. */
  datatype FeetInches = FeetInches(feet: int, inches: int)

  /** `cmToFeetInches`: whole feet by flooring, inches rounded from the remainder (never carried). */
  function CmToFeetInches(cm: real): (r: FeetInches)
    ensures cm >= 0.0 ==> r.feet >= 0 && 0 <= r.inches <= 12
    ensures cm >= 0.0 ==> (12 * r.feet) as real <= cm / CmPerInch < (12 * r.feet + 12) as real
    ensures cm >= 0.0 ==>
      (12 * r.feet + r.inches) as real - 0.5 <= cm / CmPerInch < (12 * r.feet + r.inches) as real + 0.5
  {
    var totalInches := cm / CmPerInch;
    var feet := (totalInches / 12.0).Floor;
    var inches := JsRound(JsRem(totalInches, 12.0));
    assert totalInches >= 0.0 ==> JsTrunc(totalInches / 12.0) == feet;
    FeetInches(feet, inches)
  }

  /** `feetInchesToCm`: exact linear conversion, no rounding. */
  function FeetInchesToCm(feet: real, inches: real): (cm: real)
    ensures cm / CmPerInch == 12.0 * feet + inches
    ensures cm > 0.0 <==> 12.0 * feet + inches > 0.0
  {
    (feet * 12.0 + inches) * CmPerInch
  }

  /** Whole feet and whole inches below twelve survive a conversion to centimetres and back. */
  lemma FeetInchesRoundTrip(feet: nat, inches: nat)
    requires inches < 12
    ensures CmToFeetInches(FeetInchesToCm(feet as real, inches as real)) == FeetInches(feet, inches)
  {
  }

  /**
   * Just below each whole foot the rounded inches reach 12 and are not carried into the
   * feet: lengths in [(12n + 11.5) in, (12n + 12) in) display as n feet 12 inches.
   */
  lemma InchesReachTwelveBelowEachFoot(n: nat, cm: real)
    requires (12 * n) as real * CmPerInch + 11.5 * CmPerInch <= cm < (12 * n + 12) as real * CmPerInch
    ensures CmToFeetInches(cm) == FeetInches(n, 12)
  {
    var total := cm / CmPerInch;
    assert (12 * n) as real + 11.5 <= total < (12 * n + 12) as real;
    assert (total / 12.0).Floor == n;
    assert JsRem(total, 12.0) == total - (12 * n) as real;
  }

  /** The boundary case pinned with a literal: 30.33 cm displays as 0 feet 12 inches. */
  lemma InchesTwelveAt3033()
    ensures CmToFeetInches(30.33) == FeetInches(0, 12)
  {
  }

  // ---------------------------------------------------------------------------
  // The save rule

  /**
   * What `parseFloat` reads from each text field of the form; `None` where it yields NaN
   * (empty or non-numeric text).
   */
  datatype FormInputs = FormInputs(
    heightCm: Option<real>, beltCm: Option<real>,
    heightFt: Option<real>, heightIn: Option<real>,
    beltFt: Option<real>, beltIn: Option<real>)

  /** A form whose fields are all empty. */
  const EmptyForm := FormInputs(None, None, None, None, None, None)

  /** `parseFloat(text) || 0`: a field that does not parse counts as 0. */
  function OrZero(parsed: Option<real>): (r: real)
    ensures r == 0.0 <==> parsed == None || parsed == Some(0.0)
    ensures r != 0.0 ==> parsed == Some(r)
  {
    if parsed.Some? then parsed.value else 0.0
  }

  /** The height the form holds, in centimetres, read in the chosen unit. */
  function EnteredHeightCm(useMetric: bool, inputs: FormInputs): (cm: real)
    ensures useMetric ==> cm == OrZero(inputs.heightCm)
    ensures !useMetric ==> cm / CmPerInch == 12.0 * OrZero(inputs.heightFt) + OrZero(inputs.heightIn)
  {
    if useMetric then OrZero(inputs.heightCm)
    else FeetInchesToCm(OrZero(inputs.heightFt), OrZero(inputs.heightIn))
  }

  /** The ground-to-belt length the form holds, in centimetres, read in the chosen unit. */
  function EnteredBeltCm(useMetric: bool, inputs: FormInputs): (cm: real)
    ensures useMetric ==> cm == OrZero(inputs.beltCm)
    ensures !useMetric ==> cm / CmPerInch == 12.0 * OrZero(inputs.beltFt) + OrZero(inputs.beltIn)
  {
    if useMetric then OrZero(inputs.beltCm)
    else FeetInchesToCm(OrZero(inputs.beltFt), OrZero(inputs.beltIn))
  }

  /** The two alerts a save can raise instead of saving. */
  datatype InputError =
    | NotPositive          // "Please enter valid values for both fields."
    | BeltNotBelowHeight   // "Ground to belt must be less than total height."

  /** The profile a save stores for the given lengths, or the alert it raises instead. */
  function CheckedProfile(heightCm: real, groundToBeltCm: real, previous: Option<UserDimensions>)
    : (r: Result<UserDimensions, InputError>)
    ensures r.Ok? <==> 0.0 < groundToBeltCm < heightCm
    ensures r.Failure? ==> (r.error == NotPositive <==> heightCm <= 0.0 || groundToBeltCm <= 0.0)
    ensures r.Ok? ==> ConsistentProfile(r.value) && r.value.beltToHeadCm > 0.0
    ensures r.Ok? ==> r.value.heightCm == heightCm && r.value.groundToBeltCm == groundToBeltCm
    ensures r.Ok? ==> r.value.frontSensorDistanceAtTouch ==
                      (if previous.Some? then previous.value.frontSensorDistanceAtTouch else None)
  {
    if heightCm <= 0.0 || groundToBeltCm <= 0.0 then Failure(NotPositive)
    else if groundToBeltCm >= heightCm then Failure(BeltNotBelowHeight)
    else Ok(UserDimensions(heightCm, groundToBeltCm, heightCm - groundToBeltCm,
                           if previous.Some? then previous.value.frontSensorDistanceAtTouch else None))
  }

  /** A height or belt entry that does not parse (in every part of it) makes the save fail. */
  lemma UnparsableEntryRejected(useMetric: bool, inputs: FormInputs, previous: Option<UserDimensions>)
    requires useMetric ==> inputs.heightCm.None? || inputs.beltCm.None?
    requires !useMetric ==>
      (inputs.heightFt.None? && inputs.heightIn.None?) || (inputs.beltFt.None? && inputs.beltIn.None?)
    ensures CheckedProfile(EnteredHeightCm(useMetric, inputs), EnteredBeltCm(useMetric, inputs), previous)
      == Failure(NotPositive)
  {
  }

  /**
   * The form `startEdit` fills from a profile: in metric the whole centimetres
   * (`String(Math.round(cm))`), otherwise the feet and inches `cmToFeetInches` shows.
   * The other unit's fields keep what they held.
   */
  function Prefilled(useMetric: bool, d: UserDimensions, inputs: FormInputs): (r: FormInputs)
    ensures useMetric ==> r.heightFt == inputs.heightFt && r.heightIn == inputs.heightIn
                          && r.beltFt == inputs.beltFt && r.beltIn == inputs.beltIn
    ensures !useMetric ==> r.heightCm == inputs.heightCm && r.beltCm == inputs.beltCm
  {
    if useMetric then
      inputs.(heightCm := Some(JsRound(d.heightCm) as real),
              beltCm := Some(JsRound(d.groundToBeltCm) as real))
    else
      var h := CmToFeetInches(d.heightCm);
      var b := CmToFeetInches(d.groundToBeltCm);
      inputs.(heightFt := Some(h.feet as real), heightIn := Some(h.inches as real),
              beltFt := Some(b.feet as real), beltIn := Some(b.inches as real))
  }

  /**
   * Saving the prefilled form unchanged reads back the profile's lengths only up to the
   * prefill's rounding: within half a centimetre in metric, within half an inch otherwise.
   */
  lemma PrefillRoundsLengths(useMetric: bool, d: UserDimensions, inputs: FormInputs)
    requires d.heightCm >= 0.0 && d.groundToBeltCm >= 0.0
    ensures var form := Prefilled(useMetric, d, inputs);
      var slack := if useMetric then 0.5 else 0.5 * CmPerInch;
      && d.heightCm - slack < EnteredHeightCm(useMetric, form) <= d.heightCm + slack
      && d.groundToBeltCm - slack < EnteredBeltCm(useMetric, form) <= d.groundToBeltCm + slack
  {
    var form := Prefilled(useMetric, d, inputs);
    if !useMetric {
      var h := CmToFeetInches(d.heightCm);
      var b := CmToFeetInches(d.groundToBeltCm);
      assert EnteredHeightCm(false, form) == (12 * h.feet + h.inches) as real * CmPerInch;
      assert EnteredBeltCm(false, form) == (12 * b.feet + b.inches) as real * CmPerInch;
    }
  }

  /** A stored height of 175.4 cm comes back from the metric prefill as 175 cm. */
  lemma MetricPrefillOf1754(d: UserDimensions, inputs: FormInputs)
    requires d.heightCm == 175.4
    ensures EnteredHeightCm(true, Prefilled(true, d, inputs)) == 175.0
  {
    assert JsRound(175.4) == 175;
  }

  /** The profile record of the key-value store; what it holds is read and written whole. */
  class ProfileSlot {
    var profile: Option<UserDimensions>

    constructor (initial: Option<UserDimensions>)
      ensures profile == initial
    {
      profile := initial;
    }
  }

  /** The state of the setup screen that the save rule reads and writes. */
  class UserSetupScreen {
    const storage: ProfileSlot
    /** The profile last loaded or saved, shown on the screen. */
    var dimensions: Option<UserDimensions>
    var isEditing: bool
    var useMetric: bool
    var inputs: FormInputs

    constructor (storage: ProfileSlot)
      ensures this.storage == storage
      ensures dimensions == None && !isEditing && !useMetric && inputs == EmptyForm
    {
      this.storage := storage;
      dimensions := None;
      isEditing := false;
      useMetric := false;
      inputs := EmptyForm;
    }

    /** On mount: show the stored profile, and start editing when there is none. */
    method Mount()
      modifies this
      ensures dimensions == storage.profile
      ensures isEditing == (old(isEditing) || storage.profile.None?)
      ensures useMetric == old(useMetric) && inputs == old(inputs)
    {
      var saved := storage.profile;
      dimensions := saved;
      if saved.None? {
        isEditing := true;
      }
    }

    /** `startEdit`: fill the form from the shown profile, if any, and enter edit mode. */
    method StartEdit()
      modifies this
      ensures dimensions.Some? ==> inputs == Prefilled(useMetric, dimensions.value, old(inputs))
      ensures dimensions.None? ==> inputs == old(inputs)
      ensures isEditing
      ensures dimensions == old(dimensions) && useMetric == old(useMetric)
    {
      if dimensions.Some? {
        var d := dimensions.value;
        if useMetric {
          inputs := inputs.(heightCm := Some(JsRound(d.heightCm) as real),
                            beltCm := Some(JsRound(d.groundToBeltCm) as real));
        } else {
          var h := CmToFeetInches(d.heightCm);
          var b := CmToFeetInches(d.groundToBeltCm);
          inputs := inputs.(heightFt := Some(h.feet as real), heightIn := Some(h.inches as real),
                            beltFt := Some(b.feet as real), beltIn := Some(b.inches as real));
        }
      }
      isEditing := true;
    }

    /** `cancelEdit`: leave edit mode when there is a profile to show, and clear every field. */
    method CancelEdit()
      modifies this
      ensures isEditing == (old(isEditing) && dimensions.None?)
      ensures inputs == EmptyForm
      ensures dimensions == old(dimensions) && useMetric == old(useMetric)
    {
      if dimensions.Some? {
        isEditing := false;
      }
      inputs := EmptyForm;
    }

    /**
     * `saveDimensions`: read both lengths in the chosen unit, alert and stop if they are
     * not positive or the belt is not below the head, otherwise store and show the new
     * profile with the derived length and the previous calibration value.
     */
    method SaveDimensions() returns (alert: Option<InputError>)
      modifies this, storage
      ensures var checked := CheckedProfile(EnteredHeightCm(old(useMetric), old(inputs)),
                                            EnteredBeltCm(old(useMetric), old(inputs)), old(dimensions));
        && (checked.Failure? ==> alert == Some(checked.error))
        && (checked.Ok? ==> alert == None)
        && (checked.Failure? ==> dimensions == old(dimensions) && storage.profile == old(storage.profile)
                                 && isEditing == old(isEditing))
        && (checked.Ok? ==> dimensions == Some(checked.value) && storage.profile == Some(checked.value)
                            && !isEditing)
      ensures storage.profile != old(storage.profile) ==>
        storage.profile.Some? && ConsistentProfile(storage.profile.value)
      ensures useMetric == old(useMetric) && inputs == old(inputs)
    {
      var heightCm: real;
      var groundToBeltCm: real;

      if useMetric {
        heightCm := OrZero(inputs.heightCm);
        groundToBeltCm := OrZero(inputs.beltCm);
      } else {
        var hFt := OrZero(inputs.heightFt);
        var hIn := OrZero(inputs.heightIn);
        var bFt := OrZero(inputs.beltFt);
        var bIn := OrZero(inputs.beltIn);
        heightCm := FeetInchesToCm(hFt, hIn);
        groundToBeltCm := FeetInchesToCm(bFt, bIn);
      }

      if heightCm <= 0.0 || groundToBeltCm <= 0.0 {
        return Some(NotPositive);
      }

      if groundToBeltCm >= heightCm {
        return Some(BeltNotBelowHeight);
      }

      var newDimensions := UserDimensions(
        heightCm,
        groundToBeltCm,
        heightCm - groundToBeltCm,
        if dimensions.Some? then dimensions.value.frontSensorDistanceAtTouch else None);

      storage.profile := Some(newDimensions);
      dimensions := Some(newDimensions);
      isEditing := false;
      alert := None;
    }
  }
}
