/** The input schema for a molecule of a solution-generation run: a raw molecule description is
    checked and normalised field by field, in the order the fields are declared, each field's
    validator seeing only the fields validated before it. */
module Schema {
  import opened Wrappers
  import Text

  /** How an optional field arrives. The validation framework runs a field's validators on an
      explicit `None`, but skips them, and keeps the declared default, when the field is left
      out of the input, unless the validator asks to run always. */
  datatype Field<+T> = Omitted | Null | Given(value: T)

  /** One atom of a resolved structure. */
  datatype Site = Site(species: string, x: real, y: real, z: real)

  /** A resolved structure (a pymatgen `Molecule`); its length is its number of sites. */
  datatype Molecule = Molecule(sites: seq<Site>)

  function AtomCount(m: Molecule): nat {
    |m.sites|
  }

  /** What a geometry may be given as: a structure, a string (xyz text or a file name), or a path. */
  datatype GeometrySource =
    | FromMolecule(molecule: Molecule)
    | FromText(text: string)
    | FromPath(path: string)

  /** The two chemistry collaborators the schema calls.
      `smilesAtomCount(s)` is the atom count of the molecule built from the SMILES string `s`,
      or None when building it fails; `xyzToMolecule(g)` is the structure loaded from `g`,
      or None when loading fails. */
  datatype Toolkit = Toolkit(
    smilesAtomCount: string -> Option<nat>,
    xyzToMolecule: GeometrySource -> Option<Molecule>)

  /** One constructor per way validation can fail. */
  datatype Error =
    | InvalidSmiles(smile: string)                    // the SMILES string does not build a molecule
    | InvalidGeometry(source: GeometrySource)         // a geometry source does not load
    | ChargeScalingOutOfRange(scaling: real)          // charge_scaling outside [0.1, 10]
    | ForceFieldIsNone                                // `None.lower()` on an explicit None
    | GeometryAtomCountMismatch                       // a geometry's atom count differs from the SMILES one
    | GeometriesNotSet                                // partial charges without geometries
    | NoFirstGeometry                                 // partial charges with an empty geometry list
    | ChargeLengthMismatch(charges: nat, atoms: nat)  // charge count differs from the first geometry's atoms
    | ChargesAreNone                                  // `list(None)` on an explicit None
    | LabelWithoutCharges                             // a partial-charge label without partial charges
    | MaxConformersIsNone                             // max_conformers may not be None
    | MaxConformersNotPositive(maxConformers: int)    // max_conformers must be positive
    | SmileKeyMissing                                 // `values["smile"]` read after `smile` failed

  /** A molecule description as the user supplies it (`InputMoleculeSpec` before validation).
      `smile` and `count` are required; the other fields may be omitted. */
  datatype RawSpec = RawSpec(
    smile: string,
    count: int,
    name: Field<string>,
    chargeScaling: Field<real>,
    forceField: Field<string>,
    geometries: Field<seq<GeometrySource>>,
    partialCharges: Field<seq<real>>,
    partialChargeLabel: Field<string>,
    maxConformers: Field<int>)

  /** A validated molecule description (`InputMoleculeSpec` after validation). */
  datatype CanonSpec = CanonSpec(
    smile: string,
    count: int,
    name: string,
    chargeScaling: Option<real>,
    forceField: Option<string>,
    geometries: Option<seq<Molecule>>,
    partialCharges: Option<seq<real>>,
    partialChargeLabel: Option<string>,
    maxConformers: int)

  /** `Geometry.xyz_is_valid`: a source that loads is replaced by the loaded structure;
      one that does not is rejected, naming the source. */
  function ResolveGeometry(source: GeometrySource, xyzToMolecule: GeometrySource -> Option<Molecule>): (r: Result<Molecule, Error>)
    ensures r.Ok? <==> xyzToMolecule(source).Some?
    ensures r.Ok? ==> r.value == xyzToMolecule(source).value
    ensures r.Err? ==> r.error == InvalidGeometry(source)
  {
    match xyzToMolecule(source)
    case Some(m) => Ok(m)
    case None => Err(InvalidGeometry(source))
  }

  /** The list comprehension building one `Geometry` per source: it succeeds when every source
      loads, giving the loaded structures in order, and otherwise stops at the first source
      that does not load. */
  function ResolveGeometries(sources: seq<GeometrySource>, xyzToMolecule: GeometrySource -> Option<Molecule>): (r: Result<seq<Molecule>, Error>)
    ensures r.Ok? <==> forall i :: 0 <= i < |sources| ==> xyzToMolecule(sources[i]).Some?
    ensures r.Ok? ==> |r.value| == |sources|
    ensures r.Ok? ==> forall i :: 0 <= i < |sources| ==> r.value[i] == xyzToMolecule(sources[i]).value
    ensures r.Err? ==> exists k :: 0 <= k < |sources| && xyzToMolecule(sources[k]).None?
                          && (forall j :: 0 <= j < k ==> xyzToMolecule(sources[j]).Some?)
                          && r.error == InvalidGeometry(sources[k])
  {
    if sources == [] then Ok([])
    else
      var first :- ResolveGeometry(sources[0], xyzToMolecule);
      var rest :- ResolveGeometries(sources[1..], xyzToMolecule);
      Ok([first] + rest)
  }

  /** Every source loads and has exactly `atoms` atoms. */
  predicate AllGeometriesMatch(sources: seq<GeometrySource>, atoms: nat, xyzToMolecule: GeometrySource -> Option<Molecule>) {
    forall i :: 0 <= i < |sources| ==>
      xyzToMolecule(sources[i]).Some? && AtomCount(xyzToMolecule(sources[i]).value) == atoms
  }

  /** `smile_is_valid`: the SMILES string is kept when it builds a molecule and rejected otherwise. */
  function CheckSmile(smile: string, tk: Toolkit): (r: Result<string, Error>)
    ensures r.Ok? <==> tk.smilesAtomCount(smile).Some?
    ensures r.Ok? ==> r.value == smile
    ensures r.Err? ==> r.error == InvalidSmiles(smile)
  {
    if tk.smilesAtomCount(smile).Some? then Ok(smile) else Err(InvalidSmiles(smile))
  }

  /** `set_name` (runs always): a missing name defaults to the SMILES string, a given one is kept. */
  function SetName(name: Field<string>, smile: string): (r: string)
    ensures name.Given? ==> r == name.value
    ensures !name.Given? ==> r == smile
  {
    match name
    case Given(n) => n
    case _ => smile
  }

  /** The declared constraint on `charge_scaling`: optional, within [0.1, 10], default 1.0. */
  function CheckChargeScaling(scaling: Field<real>): (r: Result<Option<real>, Error>)
    ensures scaling.Omitted? ==> r == Ok(Some(1.0))
    ensures scaling.Null? ==> r == Ok(None)
    ensures scaling.Given? ==> (r.Ok? <==> 0.1 <= scaling.value <= 10.0)
    ensures r.Ok? && r.value.Some? ==> 0.1 <= r.value.value <= 10.0
    ensures scaling.Given? && r.Ok? ==> r.value == Some(scaling.value)
    ensures r.Err? ==> r.error == ChargeScalingOutOfRange(scaling.value)
  {
    match scaling
    case Omitted => Ok(Some(1.0))
    case Null => Ok(None)
    case Given(x) => if 0.1 <= x <= 10.0 then Ok(Some(x)) else Err(ChargeScalingOutOfRange(x))
  }

  /** `lower_case_ff` (a pre-validator, so it also sees an explicit None, on which `.lower()`
      fails): a given keyword comes back lower-cased, and unchanged when it already was. */
  function LowerCaseForceField(forceField: Field<string>): (r: Result<Option<string>, Error>)
    ensures forceField.Omitted? ==> r == Ok(None)
    ensures forceField.Null? ==> r == Err(ForceFieldIsNone)
    ensures forceField.Given? ==> r == Ok(Some(Text.Lower(forceField.value)))
    ensures forceField.Given? ==> r.Ok? && r.value.Some? && |r.value.value| == |forceField.value|
    ensures r.Ok? && r.value.Some? ==> Text.NoUpper(r.value.value)
    ensures forceField.Given? && Text.NoUpper(forceField.value) ==> r == Ok(Some(forceField.value))
  {
    match forceField
    case Omitted => Ok(None)
    case Null => Err(ForceFieldIsNone)
    case Given(ff) => Ok(Some(Text.Lower(ff)))
  }

  /** `convert_xyz_to_geometry`: an absent list stays absent; a given list is accepted exactly
      when every source loads with the SMILES atom count, and is then replaced, entry by entry,
      by the loaded structures. */
  function CheckGeometries(geometries: Field<seq<GeometrySource>>, atoms: nat, xyzToMolecule: GeometrySource -> Option<Molecule>): (r: Result<Option<seq<Molecule>>, Error>)
    ensures !geometries.Given? ==> r == Ok(None)
    ensures geometries.Given? ==> (r.Ok? <==> AllGeometriesMatch(geometries.value, atoms, xyzToMolecule))
    ensures geometries.Given? && r.Ok? ==>
      r.value.Some? && |r.value.value| == |geometries.value|
      && forall i :: 0 <= i < |geometries.value| ==> r.value.value[i] == xyzToMolecule(geometries.value[i]).value
    ensures r.Ok? && r.value.Some? ==> forall i :: 0 <= i < |r.value.value| ==> AtomCount(r.value.value[i]) == atoms
  {
    match geometries
    case Given(sources) =>
      var molecules :- ResolveGeometries(sources, xyzToMolecule);
      if forall i :: 0 <= i < |molecules| ==> AtomCount(molecules[i]) == atoms
      then Ok(Some(molecules))
      else Err(GeometryAtomCountMismatch)
    case _ => Ok(None)
  }

  /** `check_geometry_is_set`: given charges need validated geometries, a first geometry, and
      one charge per atom of it; they are then kept as they are. An omitted list stays absent;
      an explicit None fails in `list(None)`. */
  function CheckPartialCharges(charges: Field<seq<real>>, geometries: Option<seq<Molecule>>): (r: Result<Option<seq<real>>, Error>)
    ensures charges.Omitted? ==> r == Ok(None)
    ensures charges.Null? ==> r == Err(ChargesAreNone)
    ensures charges.Given? ==>
      (r.Ok? <==> geometries.Some? && |geometries.value| > 0 && |charges.value| == AtomCount(geometries.value[0]))
    ensures charges.Given? && r.Ok? ==> r.value == Some(charges.value)
    ensures charges.Given? && geometries.None? ==> r == Err(GeometriesNotSet)
  {
    match charges
    case Omitted => Ok(None)
    case Null => Err(ChargesAreNone)
    case Given(cs) =>
      if geometries.None? then Err(GeometriesNotSet)
      else if |geometries.value| == 0 then Err(NoFirstGeometry)
      else if |cs| != AtomCount(geometries.value[0]) then Err(ChargeLengthMismatch(|cs|, AtomCount(geometries.value[0])))
      else Ok(Some(cs))
  }

  /** `check_partial_charges_are_set` as its documentation describes it (a label given without
      charges is an error; with charges, a given label is kept and a missing one becomes
      "custom"; with neither, no label), applied whether or not the label was supplied. */
  function CheckLabel(chargeLabel: Field<string>, charges: Option<seq<real>>): (r: Result<Option<string>, Error>)
    ensures chargeLabel.Given? ==> (r.Ok? <==> charges.Some?)
    ensures chargeLabel.Given? && charges.Some? ==> r == Ok(Some(chargeLabel.value))
    ensures chargeLabel.Given? && charges.None? ==> r == Err(LabelWithoutCharges)
    ensures !chargeLabel.Given? && charges.Some? ==> r == Ok(Some("custom"))
    ensures !chargeLabel.Given? && charges.None? ==> r == Ok(None)
    ensures r.Ok? ==> (r.value.Some? <==> charges.Some?)
  {
    match chargeLabel
    case Given(l) => if charges.None? then Err(LabelWithoutCharges) else Ok(Some(l))
    case _ => if charges.None? then Ok(None) else Ok(Some("custom"))
  }

  /** `check_partial_charges_are_set` as declared: without `always=True` it is skipped for an
      omitted label, which then keeps its default None even when charges are present. */
  function CheckLabelAsWritten(chargeLabel: Field<string>, charges: Option<seq<real>>): (r: Result<Option<string>, Error>)
    ensures chargeLabel.Omitted? ==> r == Ok(None)
    ensures !chargeLabel.Omitted? ==> r == CheckLabel(chargeLabel, charges)
  {
    if chargeLabel.Omitted? then Ok(None) else CheckLabel(chargeLabel, charges)
  }

  /** The declared constraint on `max_conformers`: a positive integer, default 1, never None. */
  function CheckMaxConformers(maxConformers: Field<int>): (r: Result<int, Error>)
    ensures r.Ok? ==> r.value > 0
    ensures maxConformers.Omitted? ==> r == Ok(1)
    ensures maxConformers.Null? ==> r == Err(MaxConformersIsNone)
    ensures maxConformers.Given? ==> (r.Ok? <==> maxConformers.value > 0)
    ensures maxConformers.Given? && r.Ok? ==> r.value == maxConformers.value
  {
    match maxConformers
    case Omitted => Ok(1)
    case Null => Err(MaxConformersIsNone)
    case Given(n) => if n > 0 then Ok(n) else Err(MaxConformersNotPositive(n))
  }

  /** What reaches the caller, as the validators are written, when the SMILES string does not
      build a molecule. A failed field is left out of `values`, and only value, type and
      assertion errors are collected, so the first validator that reads `values["smile"]`
      raises a key error that escapes at once: `set_name` for a missing name, otherwise
      `convert_xyz_to_geometry` once all its sources load, unless `lower_case_ff` has escaped
      first on an explicit None. Only when none of these runs is `InvalidSmiles` the first
      error reported. */
  function InvalidSmileOutcomeAsWritten(raw: RawSpec, tk: Toolkit): (e: Error)
    requires tk.smilesAtomCount(raw.smile).None?
    ensures !raw.name.Given? ==> e == SmileKeyMissing
    ensures raw.name.Given? && raw.forceField.Null? ==> e == ForceFieldIsNone
    ensures (raw.name.Given? && !raw.forceField.Null? && raw.geometries.Given?
             && ResolveGeometries(raw.geometries.value, tk.xyzToMolecule).Ok?) ==> e == SmileKeyMissing
    ensures e == InvalidSmiles(raw.smile) <==>
      && raw.name.Given?
      && !raw.forceField.Null?
      && !(raw.geometries.Given? && ResolveGeometries(raw.geometries.value, tk.xyzToMolecule).Ok?)
  {
    if !raw.name.Given? then SmileKeyMissing
    else if raw.forceField.Null? then ForceFieldIsNone
    else if raw.geometries.Given? && ResolveGeometries(raw.geometries.value, tk.xyzToMolecule).Ok? then SmileKeyMissing
    else InvalidSmiles(raw.smile)
  }

  /** The conditions under which a raw description is accepted, stated field by field
      without reference to the validators. */
  predicate Accepted(raw: RawSpec, tk: Toolkit) {
    && tk.smilesAtomCount(raw.smile).Some?
    && (raw.chargeScaling.Given? ==> 0.1 <= raw.chargeScaling.value <= 10.0)
    && !raw.forceField.Null?
    && (raw.geometries.Given? ==>
          AllGeometriesMatch(raw.geometries.value, tk.smilesAtomCount(raw.smile).value, tk.xyzToMolecule))
    && !raw.partialCharges.Null?
    && (raw.partialCharges.Given? ==>
          && raw.geometries.Given?
          && |raw.geometries.value| > 0
          && |raw.partialCharges.value| == tk.smilesAtomCount(raw.smile).value)
    && (raw.partialChargeLabel.Given? ==> raw.partialCharges.Given?)
    && !raw.maxConformers.Null?
    && (raw.maxConformers.Given? ==> raw.maxConformers.value > 0)
  }

  /** The whole validation of an `InputMoleculeSpec`: the fields in declaration order (smile,
      count, name, charge_scaling, force_field, geometries, partial_charges,
      partial_charge_label, max_conformers), each step reading only earlier results, stopping
      at the first error. It succeeds exactly on the accepted descriptions. */
  function Validate(raw: RawSpec, tk: Toolkit): (r: Result<CanonSpec, Error>)
    ensures r.Ok? <==> Accepted(raw, tk)
    ensures r.Ok? ==> r.value.smile == raw.smile && r.value.count == raw.count
  {
    var smile :- CheckSmile(raw.smile, tk);
    var name := SetName(raw.name, smile);
    var scaling :- CheckChargeScaling(raw.chargeScaling);
    var forceField :- LowerCaseForceField(raw.forceField);
    var geometries :- CheckGeometries(raw.geometries, tk.smilesAtomCount(smile).value, tk.xyzToMolecule);
    var charges :- CheckPartialCharges(raw.partialCharges, geometries);
    var chargeLabel :- CheckLabel(raw.partialChargeLabel, charges);
    var maxConformers :- CheckMaxConformers(raw.maxConformers);
    Ok(CanonSpec(smile, raw.count, name, scaling, forceField, geometries, charges, chargeLabel, maxConformers))
  }
}
