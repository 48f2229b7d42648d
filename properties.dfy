/** Properties of the molecule-spec validation pipeline: what each field becomes, which inputs
    are rejected and with which error, the invariant every validated spec satisfies, and that
    validating an already validated spec gives it back unchanged. */
module SchemaProperties {
  import opened Wrappers
  import opened Schema
  import Text

  // ---------------------------------------------------------------------------------------
  // Derived fields

  /** A missing name becomes the SMILES string; a given one is kept. */
  lemma NameDefaultsToSmile(raw: RawSpec, tk: Toolkit)
    requires Validate(raw, tk).Ok?
    ensures raw.name.Given? ==> Validate(raw, tk).value.name == raw.name.value
    ensures !raw.name.Given? ==> Validate(raw, tk).value.name == raw.smile
  {
  }

  /** A given force field comes back lower-cased; an omitted one stays absent. */
  lemma ForceFieldLowerCased(raw: RawSpec, tk: Toolkit)
    requires Validate(raw, tk).Ok?
    ensures raw.forceField.Given? ==> Validate(raw, tk).value.forceField == Some(Text.Lower(raw.forceField.value))
    ensures raw.forceField.Omitted? ==> Validate(raw, tk).value.forceField.None?
    ensures Validate(raw, tk).value.forceField.Some? ==> Text.NoUpper(Validate(raw, tk).value.forceField.value)
  {
  }

  /** Normalising an already normalised force field changes nothing. */
  lemma ForceFieldIdempotent(forceField: string)
    ensures LowerCaseForceField(Given(Text.Lower(forceField))) == LowerCaseForceField(Given(forceField))
  {
    Text.LowerIdempotent(forceField);
  }

  /** `charge_scaling` defaults to 1.0, and a validated value lies in [0.1, 10]. */
  lemma ChargeScalingInRange(raw: RawSpec, tk: Toolkit)
    requires Validate(raw, tk).Ok?
    ensures raw.chargeScaling.Omitted? ==> Validate(raw, tk).value.chargeScaling == Some(1.0)
    ensures raw.chargeScaling.Given? ==> Validate(raw, tk).value.chargeScaling == Some(raw.chargeScaling.value)
    ensures Validate(raw, tk).value.chargeScaling.Some? ==> 0.1 <= Validate(raw, tk).value.chargeScaling.value <= 10.0
  {
  }

  /** `max_conformers` defaults to 1, and a validated value is positive. */
  lemma MaxConformersPositive(raw: RawSpec, tk: Toolkit)
    requires Validate(raw, tk).Ok?
    ensures raw.maxConformers.Omitted? ==> Validate(raw, tk).value.maxConformers == 1
    ensures raw.maxConformers.Given? ==> Validate(raw, tk).value.maxConformers == raw.maxConformers.value
    ensures Validate(raw, tk).value.maxConformers > 0
  {
  }

  /** An absent geometry list stays absent; a given one is replaced, entry by entry, by the
      loaded structures, each with the SMILES atom count. */
  lemma GeometriesResolved(raw: RawSpec, tk: Toolkit)
    requires Validate(raw, tk).Ok?
    ensures !raw.geometries.Given? ==> Validate(raw, tk).value.geometries.None?
    ensures raw.geometries.Given? ==>
      var ms := Validate(raw, tk).value.geometries;
      && ms.Some?
      && |ms.value| == |raw.geometries.value|
      && forall i :: 0 <= i < |ms.value| ==>
           && ms.value[i] == tk.xyzToMolecule(raw.geometries.value[i]).value
           && AtomCount(ms.value[i]) == tk.smilesAtomCount(raw.smile).value
  {
  }

  /** Given charges are kept as they are, one per atom of every geometry. */
  lemma ChargesKept(raw: RawSpec, tk: Toolkit)
    requires Validate(raw, tk).Ok?
    requires raw.partialCharges.Given?
    ensures Validate(raw, tk).value.partialCharges == Some(raw.partialCharges.value)
    ensures Validate(raw, tk).value.geometries.Some?
    ensures forall m :: m in Validate(raw, tk).value.geometries.value ==> |raw.partialCharges.value| == AtomCount(m)
  {
  }

  /** The label rules: with charges a given label is kept and a missing one becomes "custom";
      without charges there is no label. */
  lemma LabelRules(raw: RawSpec, tk: Toolkit)
    requires Validate(raw, tk).Ok?
    ensures raw.partialCharges.Given? && raw.partialChargeLabel.Given? ==>
      Validate(raw, tk).value.partialChargeLabel == Some(raw.partialChargeLabel.value)
    ensures raw.partialCharges.Given? && !raw.partialChargeLabel.Given? ==>
      Validate(raw, tk).value.partialChargeLabel == Some("custom")
    ensures !raw.partialCharges.Given? ==>
      !raw.partialChargeLabel.Given? && Validate(raw, tk).value.partialChargeLabel.None?
  {
  }

  /** Omitted charges and an omitted label stay absent, and an explicit None charge scaling
      stays None. */
  lemma AbsentFieldsStayAbsent(raw: RawSpec, tk: Toolkit)
    requires Validate(raw, tk).Ok?
    ensures raw.partialCharges.Omitted? ==> Validate(raw, tk).value.partialCharges.None?
    ensures raw.partialCharges.Omitted? ==> Validate(raw, tk).value.partialChargeLabel.None?
    ensures raw.chargeScaling.Null? ==> Validate(raw, tk).value.chargeScaling.None?
  {
  }

  // ---------------------------------------------------------------------------------------
  // Rejections

  /** A SMILES string that does not build a molecule is the first error reported. */
  lemma InvalidSmilesRejected(raw: RawSpec, tk: Toolkit)
    requires tk.smilesAtomCount(raw.smile).None?
    ensures Validate(raw, tk) == Err(InvalidSmiles(raw.smile))
  {
  }

  /** A `charge_scaling` outside [0.1, 10] is rejected. */
  lemma ChargeScalingOutOfRangeRejected(raw: RawSpec, tk: Toolkit)
    requires raw.chargeScaling.Given? && !(0.1 <= raw.chargeScaling.value <= 10.0)
    ensures Validate(raw, tk).Err?
    ensures tk.smilesAtomCount(raw.smile).Some? ==>
      Validate(raw, tk) == Err(ChargeScalingOutOfRange(raw.chargeScaling.value))
  {
  }

  /** The fields before `geometries` all pass. */
  predicate PassesUpToGeometries(raw: RawSpec, tk: Toolkit) {
    && tk.smilesAtomCount(raw.smile).Some?
    && CheckChargeScaling(raw.chargeScaling).Ok?
    && !raw.forceField.Null?
  }

  /** A geometry source that does not load rejects the spec; when the earlier fields pass, the
      error names the first such source. */
  lemma UnloadableGeometryRejected(raw: RawSpec, tk: Toolkit, k: nat)
    requires raw.geometries.Given? && k < |raw.geometries.value|
    requires tk.xyzToMolecule(raw.geometries.value[k]).None?
    requires forall j :: 0 <= j < k ==> tk.xyzToMolecule(raw.geometries.value[j]).Some?
    ensures Validate(raw, tk).Err?
    ensures PassesUpToGeometries(raw, tk) ==> Validate(raw, tk) == Err(InvalidGeometry(raw.geometries.value[k]))
  {
  }

  /** One loaded geometry with the wrong atom count rejects the whole list; when the earlier
      fields pass and every source loads, the error is the atom-count mismatch. */
  lemma MismatchedGeometryRejected(raw: RawSpec, tk: Toolkit, k: nat)
    requires tk.smilesAtomCount(raw.smile).Some?
    requires raw.geometries.Given? && k < |raw.geometries.value|
    requires tk.xyzToMolecule(raw.geometries.value[k]).Some?
    requires AtomCount(tk.xyzToMolecule(raw.geometries.value[k]).value) != tk.smilesAtomCount(raw.smile).value
    ensures Validate(raw, tk).Err?
    ensures PassesUpToGeometries(raw, tk)
            && (forall i :: 0 <= i < |raw.geometries.value| ==> tk.xyzToMolecule(raw.geometries.value[i]).Some?)
            ==> Validate(raw, tk) == Err(GeometryAtomCountMismatch)
  {
  }

  /** The fields before `partial_charges` all pass. */
  predicate PassesUpToCharges(raw: RawSpec, tk: Toolkit) {
    && PassesUpToGeometries(raw, tk)
    && (raw.geometries.Given? ==>
          AllGeometriesMatch(raw.geometries.value, tk.smilesAtomCount(raw.smile).value, tk.xyzToMolecule))
  }

  /** Charges without geometries are rejected; when the earlier fields pass, with
      `GeometriesNotSet`. */
  lemma ChargesWithoutGeometriesRejected(raw: RawSpec, tk: Toolkit)
    requires raw.partialCharges.Given? && !raw.geometries.Given?
    ensures Validate(raw, tk).Err?
    ensures PassesUpToCharges(raw, tk) ==> Validate(raw, tk) == Err(GeometriesNotSet)
  {
  }

  /** Charges whose number differs from the first geometry's atom count are rejected; when the
      earlier fields pass, with `ChargeLengthMismatch`. */
  lemma ChargeLengthMismatchRejected(raw: RawSpec, tk: Toolkit)
    requires raw.partialCharges.Given? && raw.geometries.Given? && |raw.geometries.value| > 0
    requires tk.xyzToMolecule(raw.geometries.value[0]).Some?
    requires |raw.partialCharges.value| != AtomCount(tk.xyzToMolecule(raw.geometries.value[0]).value)
    ensures Validate(raw, tk).Err?
    ensures PassesUpToCharges(raw, tk) ==>
      Validate(raw, tk) == Err(ChargeLengthMismatch(|raw.partialCharges.value|,
                                                    AtomCount(tk.xyzToMolecule(raw.geometries.value[0]).value)))
  {
  }

  /** Charges with a given but empty geometry list are rejected; when the earlier fields pass,
      with `NoFirstGeometry` (the index error of `geometries[0]`). */
  lemma ChargesWithEmptyGeometriesRejected(raw: RawSpec, tk: Toolkit)
    requires raw.partialCharges.Given? && raw.geometries == Given([])
    ensures Validate(raw, tk).Err?
    ensures PassesUpToCharges(raw, tk) ==> Validate(raw, tk) == Err(NoFirstGeometry)
  {
  }

  /** A label without charges is rejected; when the earlier fields pass, with
      `LabelWithoutCharges`. */
  lemma LabelWithoutChargesRejected(raw: RawSpec, tk: Toolkit)
    requires raw.partialChargeLabel.Given? && !raw.partialCharges.Given?
    ensures Validate(raw, tk).Err?
    ensures PassesUpToCharges(raw, tk) && raw.partialCharges.Omitted? ==> Validate(raw, tk) == Err(LabelWithoutCharges)
  {
  }

  /** A non-positive `max_conformers` is rejected. */
  lemma MaxConformersNotPositiveRejected(raw: RawSpec, tk: Toolkit)
    requires raw.maxConformers.Given? && raw.maxConformers.value <= 0
    ensures Validate(raw, tk).Err?
  {
  }

  // ---------------------------------------------------------------------------------------
  // The invariant of a validated spec, and re-validation

  /** What holds of every validated spec, field against field. */
  predicate WellFormed(c: CanonSpec, tk: Toolkit) {
    && tk.smilesAtomCount(c.smile).Some?
    && (c.chargeScaling.Some? ==> 0.1 <= c.chargeScaling.value <= 10.0)
    && (c.forceField.Some? ==> Text.NoUpper(c.forceField.value))
    && (c.geometries.Some? ==>
          forall i :: 0 <= i < |c.geometries.value| ==> AtomCount(c.geometries.value[i]) == tk.smilesAtomCount(c.smile).value)
    && (c.partialCharges.Some? ==>
          && c.geometries.Some?
          && |c.geometries.value| > 0
          && |c.partialCharges.value| == tk.smilesAtomCount(c.smile).value)
    && (c.partialChargeLabel.Some? <==> c.partialCharges.Some?)
    && c.maxConformers > 0
  }

  /** Validation only ever produces well-formed specs. */
  lemma ValidatedIsWellFormed(raw: RawSpec, tk: Toolkit)
    requires Validate(raw, tk).Ok?
    ensures WellFormed(Validate(raw, tk).value, tk)
  {
  }

  /** An optional value as a field: present values are given, absent ones omitted. */
  function AsField<T>(o: Option<T>): Field<T> {
    match o
    case Some(v) => Given(v)
    case None => Omitted
  }

  /** A validated spec fed back in as input: every value given as it is, each geometry as its
      structure, and an absent charge scaling as an explicit None (omitting it would default
      it to 1.0). */
  function ToRaw(c: CanonSpec): RawSpec {
    RawSpec(
      c.smile,
      c.count,
      Given(c.name),
      match c.chargeScaling case Some(x) => Given(x) case None => Null,
      AsField(c.forceField),
      match c.geometries
        case Some(ms) => Given(seq(|ms|, i requires 0 <= i < |ms| => FromMolecule(ms[i])))
        case None => Omitted,
      AsField(c.partialCharges),
      AsField(c.partialChargeLabel),
      Given(c.maxConformers))
  }

  /** Validating a well-formed spec again gives it back unchanged, provided loading a structure
      gives that same structure. */
  lemma {:induction false} RevalidateIsIdentity(c: CanonSpec, tk: Toolkit)
    requires WellFormed(c, tk)
    requires forall m :: tk.xyzToMolecule(FromMolecule(m)) == Some(m)
    ensures Validate(ToRaw(c), tk) == Ok(c)
  {
    var raw := ToRaw(c);
    var n := tk.smilesAtomCount(c.smile).value;
    if c.geometries.Some? {
      var ms := c.geometries.value;
      var srcs := raw.geometries.value;
      assert forall i :: 0 <= i < |srcs| ==> tk.xyzToMolecule(srcs[i]) == Some(ms[i]) by {
        forall i | 0 <= i < |srcs| ensures tk.xyzToMolecule(srcs[i]) == Some(ms[i]) {
          assert srcs[i] == FromMolecule(ms[i]);
        }
      }
      assert AllGeometriesMatch(srcs, n, tk.xyzToMolecule);
      var g := CheckGeometries(raw.geometries, n, tk.xyzToMolecule);
      assert g.value.value == ms;
    }
    assert Accepted(raw, tk);
  }

  // ---------------------------------------------------------------------------------------
  // A failing SMILES string as the validators are written

  /** With the name left out, the source never reports the bad SMILES string: `set_name` reads
      `values["smile"]` and its key error escapes, where `Validate` reports `InvalidSmiles`. */
  lemma InvalidSmileMaskedAsWritten(raw: RawSpec, tk: Toolkit)
    requires tk.smilesAtomCount(raw.smile).None?
    requires !raw.name.Given?
    ensures InvalidSmileOutcomeAsWritten(raw, tk) == SmileKeyMissing
    ensures Validate(raw, tk) == Err(InvalidSmiles(raw.smile))
  {
  }

  /** With a name given and every geometry source loading, the source still never reports the
      bad SMILES string: `convert_xyz_to_geometry` reads `values["smile"]` and its key error
      escapes, where `Validate` reports `InvalidSmiles`. */
  lemma InvalidSmileMaskedByGeometriesAsWritten(raw: RawSpec, tk: Toolkit)
    requires tk.smilesAtomCount(raw.smile).None?
    requires raw.name.Given? && !raw.forceField.Null?
    requires raw.geometries.Given?
    requires forall i :: 0 <= i < |raw.geometries.value| ==> tk.xyzToMolecule(raw.geometries.value[i]).Some?
    ensures InvalidSmileOutcomeAsWritten(raw, tk) == SmileKeyMissing
    ensures Validate(raw, tk) == Err(InvalidSmiles(raw.smile))
  {
  }

  // ---------------------------------------------------------------------------------------
  // The label validator as declared

  /** Because `check_partial_charges_are_set` is not declared to run always, an omitted label
      with charges present is left unset, where the documented rule gives "custom". */
  lemma OmittedLabelNotDefaultedAsWritten(charges: seq<real>)
    ensures CheckLabelAsWritten(Omitted, Some(charges)) == Ok(None)
    ensures CheckLabel(Omitted, Some(charges)) == Ok(Some("custom"))
  {
  }
}
