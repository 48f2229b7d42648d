# Molecule input schema: validation pipeline

This project models `InputMoleculeSpec`, the input schema for one molecular species of an
OpenMM solution-generation run. The schema takes a raw molecule description and turns it into a
canonical one. The fields are
`smile`, `count`, `name`, `charge_scaling`, `force_field`, `geometries`, `partial_charges`,
`partial_charge_label` and `max_conformers`.
The validation framework, pydantic v1, checks these fields in declaration order. Each field's validator sees
only the fields validated before it. The model writes this as one explicit pipeline,
`Schema.Validate`, which stops at the first error.

Modules:

- `Wrappers` (`wrappers.dfy`): `Option` and a `Result` usable with `:-`.
- `Text` (`text.dfy`): lower-casing of strings, as applied to the force-field keyword.
- `Schema` (`schema.dfy`): the input and validated records, the error kinds, one function
  per validator, the reference predicate `Accepted`, and `Validate`.
- `SchemaProperties` (`properties.dfy`): what each field becomes, which inputs are rejected
  and with which error, the invariant `WellFormed` of every validated spec, re-validation, and
  the label validator and a failing SMILES string as the validators are written.

Optional fields are modelled with three states: `Omitted`, `Null` (an explicit `None`) and
`Given(v)`. Pydantic v1 treats these differently. It keeps the default of an omitted field
without running that field's validators, unless a validator is declared to run always (only
`set_name` is). A pre-validator does run on an explicit `None`. So the model keeps these
behaviours:

- `force_field=None` fails, because `None.lower()` raises.
- `partial_charges=None` fails, because `list(None)` raises.
- `max_conformers=None` is refused.
- `charge_scaling=None` stays `None`, while an omitted `charge_scaling` becomes 1.0.

Two collaborators are parameters, bundled in `Schema.Toolkit`:

- building a molecule from a SMILES string: `smilesAtomCount`, the atom count or None;
- loading a geometry source: `xyzToMolecule`, the structure or None.

A geometry list that is given but empty is accepted. Partial charges given together with such a
list fail at `geometries[0]` with an index error. The model reports this case as `NoFirstGeometry`.

`count` has no validator in the code, so the model passes it through unchanged. A positivity
check on it would be a description of intent, not of the code.

## Model

| member | source | states |
|---|---|---|
| `Text.Lower` | pymatgen/io/openmm/schema.py:60-63 | the result has the input's length, maps each character through `LowerChar`, has no upper-case letter left, and equals its input exactly when the input had none |
| `Text.LowerIdempotent` | pymatgen/io/openmm/schema.py:60-63 | lower-casing twice equals lower-casing once |
| `Schema.ResolveGeometry` | pymatgen/io/openmm/schema.py:22-29 | a geometry source is accepted exactly when it loads, and is then replaced by the loaded structure; otherwise the error names the source |
| `Schema.ResolveGeometries` | pymatgen/io/openmm/schema.py:76 | the list succeeds exactly when every source loads, giving the loaded structures in order and of the same number; otherwise the error names the first source that does not load |
| `Schema.CheckSmile` | pymatgen/io/openmm/schema.py:51-58 | the SMILES string is kept unchanged exactly when it builds a molecule; otherwise it is rejected with `InvalidSmiles` |
| `Schema.SetName` | pymatgen/io/openmm/schema.py:65-70 | a given name is kept; a missing or None name becomes the SMILES string |
| `Schema.CheckChargeScaling` | pymatgen/io/openmm/schema.py:40 | an omitted value defaults to 1.0, None stays None, and a given value is accepted unchanged exactly when it lies in [0.1, 10] |
| `Schema.LowerCaseForceField` | pymatgen/io/openmm/schema.py:60-63 | an omitted keyword stays absent; an explicit None fails; a given keyword comes back as its `Text.Lower`, so with the same length and no upper-case letter, and unchanged when it was already lower-case |
| `Schema.CheckGeometries` | pymatgen/io/openmm/schema.py:72-85 | an absent list stays absent; a given list is accepted exactly when every source loads with the SMILES atom count, and then becomes the loaded structures, entry by entry |
| `Schema.CheckPartialCharges` | pymatgen/io/openmm/schema.py:87-98 | given charges are accepted exactly when geometries are set, there is a first geometry, and there is one charge per atom of it; accepted charges are kept unchanged; charges without geometries give `GeometriesNotSet`; an omitted list stays absent and an explicit None fails |
| `Schema.CheckLabel` | pymatgen/io/openmm/schema.py:100-112 | a given label is accepted exactly when charges are present and is then kept; a missing label becomes "custom" with charges and stays absent without them; an accepted result has a label exactly when there are charges |
| `Schema.CheckLabelAsWritten` | pymatgen/io/openmm/schema.py:100-112 | an omitted label stays unset whatever the charges, because the validator is not declared to run always; in every other case it behaves as `CheckLabel` |
| `Schema.CheckMaxConformers` | pymatgen/io/openmm/schema.py:45 | the result is always positive; an omitted value defaults to 1; None is refused; a given value is accepted unchanged exactly when positive |
| `Schema.Validate` | pymatgen/io/openmm/schema.py:32-112 | validation succeeds exactly on the descriptions that satisfy the field-by-field conditions of `Accepted`, and it keeps the SMILES string and the count |
| `SchemaProperties.NameDefaultsToSmile` | pymatgen/io/openmm/schema.py:65-70 | in a validated spec the name is the given name, or the SMILES string when none was given |
| `SchemaProperties.ForceFieldLowerCased` | pymatgen/io/openmm/schema.py:60-63 | in a validated spec a given force field appears lower-cased, an omitted one is absent, and a present one has no upper-case letter |
| `SchemaProperties.ForceFieldIdempotent` | pymatgen/io/openmm/schema.py:60-63 | normalising an already lower-cased force field gives the same result as normalising the original |
| `SchemaProperties.ChargeScalingInRange` | pymatgen/io/openmm/schema.py:40 | in a validated spec the charge scaling is 1.0 when omitted, the given value when given, and always within [0.1, 10] when present |
| `SchemaProperties.MaxConformersPositive` | pymatgen/io/openmm/schema.py:45 | in a validated spec `max_conformers` is 1 when omitted, the given value when given, and always positive |
| `SchemaProperties.GeometriesResolved` | pymatgen/io/openmm/schema.py:72-85 | in a validated spec an absent geometry list is absent; a given one has become the loaded structures, in order and of the same number, each with the SMILES atom count |
| `SchemaProperties.ChargesKept` | pymatgen/io/openmm/schema.py:94-98 | in a validated spec given charges are kept unchanged, geometries are present, and the number of charges equals the atom count of every geometry |
| `SchemaProperties.LabelRules` | pymatgen/io/openmm/schema.py:100-112 | in a validated spec with charges, a given label is kept and a missing one is "custom"; without charges, no label was given and none is set |
| `SchemaProperties.AbsentFieldsStayAbsent` | pymatgen/io/openmm/schema.py:40-44 | in a validated spec omitted charges leave charges and label absent, and an explicit None charge scaling stays None |
| `SchemaProperties.InvalidSmilesRejected` | pymatgen/io/openmm/schema.py:51-58 | a SMILES string that does not build a molecule is the error `Validate` reports, whatever the other fields are (the corrected behaviour; see Findings) |
| `Schema.InvalidSmileOutcomeAsWritten` | pymatgen/io/openmm/schema.py:51-83 | when the SMILES string does not build a molecule, the validators as written raise a key error for a missing name, the force-field error for an explicit None force field, a key error when geometries are given and every source loads, and `InvalidSmiles` in every other case |
| `SchemaProperties.InvalidSmileMaskedAsWritten` | pymatgen/io/openmm/schema.py:65-70 | with a bad SMILES string and no name, the source raises a key error where `Validate` reports `InvalidSmiles` |
| `SchemaProperties.InvalidSmileMaskedByGeometriesAsWritten` | pymatgen/io/openmm/schema.py:72-83 | with a bad SMILES string, a name given, no explicit None force field, and every geometry source loading, the source raises a key error at `values["smile"]` where `Validate` reports `InvalidSmiles` |
| `SchemaProperties.ChargeScalingOutOfRangeRejected` | pymatgen/io/openmm/schema.py:40 | a charge scaling outside [0.1, 10] is rejected, with `ChargeScalingOutOfRange` when the SMILES string is valid |
| `SchemaProperties.UnloadableGeometryRejected` | pymatgen/io/openmm/schema.py:22-29 | a geometry source that does not load rejects the spec; when the earlier fields pass, the error names the first such source |
| `SchemaProperties.MismatchedGeometryRejected` | pymatgen/io/openmm/schema.py:76-83 | a single loaded geometry with the wrong atom count rejects the whole spec; when the earlier fields pass and every source loads, the error is `GeometryAtomCountMismatch` |
| `SchemaProperties.ChargesWithoutGeometriesRejected` | pymatgen/io/openmm/schema.py:87-93 | charges with geometries not set are rejected; when the earlier fields pass, the error is `GeometriesNotSet` |
| `SchemaProperties.ChargeLengthMismatchRejected` | pymatgen/io/openmm/schema.py:94-97 | charges whose number differs from the first geometry's atom count are rejected; when the earlier fields pass, the error is `ChargeLengthMismatch` |
| `SchemaProperties.ChargesWithEmptyGeometriesRejected` | pymatgen/io/openmm/schema.py:90-94 | charges with a given but empty geometry list are rejected; when the earlier fields pass, with `NoFirstGeometry` |
| `SchemaProperties.LabelWithoutChargesRejected` | pymatgen/io/openmm/schema.py:103-107 | a label given with charges omitted or None is rejected; when the charges are omitted and the earlier fields pass, the error is `LabelWithoutCharges` |
| `SchemaProperties.MaxConformersNotPositiveRejected` | pymatgen/io/openmm/schema.py:45 | a given `max_conformers` that is not positive is rejected |
| `SchemaProperties.ValidatedIsWellFormed` | pymatgen/io/openmm/schema.py:37-112 | every validated spec satisfies the invariant `WellFormed`: valid SMILES, charge scaling in range, a lower-case force field, every geometry with the SMILES atom count, one charge per atom and a non-empty geometry list when there are charges, a label exactly when there are charges, and positive `max_conformers` |
| `SchemaProperties.RevalidateIsIdentity` | pymatgen/io/openmm/schema.py:37-112 | validating a well-formed spec again, with every value supplied as it is, gives the same spec back, provided that loading a structure returns that structure |
| `SchemaProperties.OmittedLabelNotDefaultedAsWritten` | pymatgen/io/openmm/schema.py:100-112 | with charges present and the label omitted, the declared validator leaves the label unset, while the documented rule gives "custom" |

## Left out

- The SMILES parser (`tk.Molecule.from_smiles`) and the geometry loader (`xyz_to_molecule`)
  belong to external toolkits. The model makes them function parameters that return an
  optional atom count and an optional structure. `pymatgen/io/openmm/utils.py` is not part of
  this model.
- Reading files named by a `Path` or string geometry source is I/O inside the loader. The
  model does not cover it.
- `xyz_is_valid` calls the loader twice, once to test it and once to return its result. The
  model calls it once, so it assumes the loader is deterministic.
- Text.Lower: lower-cases only the ASCII letters A-Z. Python's `str.lower()` also maps other
  Unicode upper-case letters.
- The `constr(to_lower=True)` constraint lower-cases the keyword a second time. The model
  applies `Lower` once. Lower-casing is idempotent (`Text.LowerIdempotent`), so the result is
  the same.
- Partial charges and `charge_scaling` are floats in the source but reals in the model.
  Bound checks use exact comparison, so a float that rounds across 0.1 or 10 is not modelled.
  The model also leaves out type coercion of the inputs, such as a string or int given for a
  float field.
- The framework collects one error per failing field and reports them together. Validators
  that raise something other than a value, type or assertion error escape at once. The model
  stops at the first error in declaration order. It succeeds on exactly the inputs the source
  accepts. It produces the same field values, except `partial_charge_label`: with charges
  present and the label omitted, `Validate` follows the documented rule and gives "custom",
  where the source leaves it unset (see Findings).
- SchemaProperties.InvalidSmilesRejected: states the corrected behaviour. As written, a bad
  SMILES string is often hidden by a key error on `values["smile"]` (see Findings and
  `Schema.InvalidSmileOutcomeAsWritten`).
- `count` has no check in the code. The model passes it through unchanged.
- The framework refuses an explicit `None` for the required fields `smile` and `count`. The
  model's `RawSpec` gives those two fields plain values, so that case is not represented.
- `MoleculeSpec` and `SetContents` are data classes with no logic. Their serialisation and
  numpy arrays are out of the model. The source contains no aggregation step that fills
  `SetContents`, so nothing about its layout is modelled.
- `InputSetSettings` is a dictionary passed through without validation.

## Findings

| source | as written | input that shows it | evidently intended | confidence | as-written member | corrected member |
|---|---|---|---|---|---|---|
| pymatgen/io/openmm/schema.py:100-112 | `check_partial_charges_are_set` is not declared `always=True`, so it is skipped when the label is left out, and the label keeps its default `None` | geometries and matching `partial_charges` given, `partial_charge_label` omitted: the label stays `None` | the validator's docstring says the label defaults to "custom" whenever partial charges are set (as `set_name` does with `always=True`) | medium, not executed; rests on the validation framework skipping validators of omitted fields | `Schema.CheckLabelAsWritten`, `SchemaProperties.OmittedLabelNotDefaultedAsWritten` | `Schema.CheckLabel` (used by `Schema.Validate`; `SchemaProperties.LabelRules`) |
| pymatgen/io/openmm/schema.py:65-83 | once `smile` has failed it is missing from `values`, and `set_name` (`values["smile"]`, line 69) or `convert_xyz_to_geometry` (line 78) raises a key error, which the framework does not collect, so it escapes in place of the SMILES error | an unbuildable `smile` with `name` omitted: a bare key error, not "Invalid SMILES string" | the invalid SMILES string is the error reported | medium, not executed; rests on the framework dropping failed fields from `values` and collecting only value, type and assertion errors | `Schema.InvalidSmileOutcomeAsWritten`, `SchemaProperties.InvalidSmileMaskedAsWritten`, `SchemaProperties.InvalidSmileMaskedByGeometriesAsWritten` | `Schema.Validate` (`SchemaProperties.InvalidSmilesRejected`) |
