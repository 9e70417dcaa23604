/**
 * The settings form: per-user overrides of the numeric project defaults,
 * their fallback to the company's defaults, the payload sent on save and the
 * merge into the calculator's stored project data.
 *
 * Settings objects come from stored JSON, so a present key may hold a number,
 * `NaN`, `undefined` or something that is not a number at all; `Value` keeps
 * those apart because the form's `typeof` and `isNaN` tests do. `parseFloat`,
 * the database and the browser storage are not modelled: their outcomes are
 * parameters.
 */
module Settings {
  import opened Wrappers
  import Text
  import Exterior

  /** Every project field except the square footage. */
  type NumericKey = f: Exterior.Field | f != Exterior.SquareFootage witness Exterior.PricePerSq

  datatype Value = Num(x: real) | NaN | Undefined | NonNumber

  type Settings = map<NumericKey, Value>

  /** `obj?.[key]` on a settings object that may be null. */
  function Lookup(s: Option<Settings>, key: NumericKey): (v: Value)
    ensures s.None? || key !in s.value ==> v == Undefined
    ensures s.Some? && key in s.value ==> v == s.value[key]
  {
    if s.Some? && key in s.value then s.value[key] else Undefined
  }

  // ---------------------------------------------------------------- the form state

  datatype MessageKind = Success | Error | Info

  datatype Message = Message(kind: MessageKind, text: string)

  datatype Form = Form(values: Settings, savedSettings: Settings, saving: bool, message: Option<Message>)

  /** Both the edited and the saved values start from the user's stored settings, or `{}`. */
  function InitialForm(initialUserSettings: Option<Settings>): (f: Form)
    ensures f.values == f.savedSettings == initialUserSettings.GetOr(map[])
    ensures !f.saving && f.message == None
  {
    var s := initialUserSettings.GetOr(map[]);
    Form(s, s, false, None)
  }

  /**
   * `setField`: blank input (after trimming) removes the key, input that
   * parses to `NaN` changes nothing, anything else sets that key alone.
   * `parsed` is `parseFloat` of the trimmed text, `None` for `NaN`.
   */
  function SetField(values: Settings, key: NumericKey, raw: string, parsed: Option<real>): (r: Settings)
    ensures Text.Trim(raw) == "" ==> r == values - {key}
    ensures Text.Trim(raw) != "" && parsed.None? ==> r == values
    ensures Text.Trim(raw) != "" && parsed.Some? ==> r == values[key := Num(parsed.value)]
    ensures forall k :: k != key ==> Lookup(Some(r), k) == Lookup(Some(values), k)
  {
    if Text.Trim(raw) == "" then values - {key}
    else if parsed.None? then values
    else values[key := Num(parsed.value)]
  }

  /** `getFallback`: the company default alone. */
  function GetFallback(companyDefaults: Option<Settings>, key: NumericKey): Value {
    Lookup(companyDefaults, key)
  }

  /** `getEffective`: the saved value unless it is `undefined`, then the company default. */
  function GetEffective(savedSettings: Settings, companyDefaults: Option<Settings>, key: NumericKey): (v: Value)
    ensures Lookup(Some(savedSettings), key) != Undefined ==> v == savedSettings[key]
    ensures Lookup(Some(savedSettings), key) == Undefined ==> v == GetFallback(companyDefaults, key)
  {
    var sv := Lookup(Some(savedSettings), key);
    if sv != Undefined then sv else Lookup(companyDefaults, key)
  }

  const ResetMessage := "Loaded company default values into the form. Remember to Save."

  /** `resetToCompanyDefaults`: load the company defaults when there are any. */
  function ResetToCompanyDefaults(f: Form, companyDefaults: Option<Settings>): (r: Form)
    ensures companyDefaults.None? ==> r == f
    ensures companyDefaults.Some? ==>
      r == f.(values := companyDefaults.value, message := Some(Message(Info, ResetMessage)))
  {
    if companyDefaults.Some? then
      f.(values := companyDefaults.value, message := Some(Message(Info, ResetMessage)))
    else f
  }

  // ---------------------------------------------------------------- the payload

  /** The keys of `obj` whose value is a number other than `NaN`, with those values. */
  function Sanitized(obj: Settings): (out: Settings)
    ensures out.Keys <= obj.Keys
    ensures forall k :: k in out <==> k in obj && obj[k].Num?
    ensures forall k :: k in out ==> out[k] == obj[k]
  {
    map k | k in obj && obj[k].Num? :: obj[k]
  }

  /** `sanitizePayload`: the loop that copies the numeric entries. */
  method SanitizePayload(obj: Settings) returns (out: Settings)
    ensures out == Sanitized(obj)
  {
    out := map[];
    var rest := obj.Keys;
    while rest != {}
      invariant rest <= obj.Keys
      invariant forall k :: k in out <==> k in obj && k !in rest && obj[k].Num?
      invariant forall k :: k in out ==> out[k] == obj[k]
      decreases rest
    {
      var k :| k in rest;
      var n := obj[k];
      if n.Num? {
        out := out[k := n];
      }
      rest := rest - {k};
    }
  }

  /** Sanitising a payload a second time changes nothing. */
  lemma SanitizedIdempotent(obj: Settings)
    ensures Sanitized(Sanitized(obj)) == Sanitized(obj)
  {
  }

  /** What the database call reports. */
  datatype SaveOutcome = Stored | Failed(reason: Option<string>)

  /**
   * `save`: on success the saved settings become the sanitised payload; on
   * failure they stay and the error's message (or a stock text) is shown.
   */
  function Save(f: Form, outcome: SaveOutcome): (r: Form)
    ensures r.values == f.values && !r.saving
    ensures outcome.Stored? ==> r.savedSettings == Sanitized(f.values)
                                && r.message == Some(Message(Success, "Settings saved successfully."))
    ensures outcome.Failed? ==> r.savedSettings == f.savedSettings
                                && r.message == Some(Message(Error, StrOrDefault(outcome.reason, "Failed to save settings.")))
  {
    match outcome
    case Stored =>
      f.(savedSettings := Sanitized(f.values), saving := false,
         message := Some(Message(Success, "Settings saved successfully.")))
    case Failed(reason) =>
      f.(saving := false, message := Some(Message(Error, StrOrDefault(reason, "Failed to save settings."))))
  }

  /** After a successful save, the effective value is the edited number, or else the company default. */
  lemma SaveThenEffective(f: Form, companyDefaults: Option<Settings>, key: NumericKey)
    ensures var saved := Save(f, Stored).savedSettings;
      GetEffective(saved, companyDefaults, key)
      == if key in f.values && f.values[key].Num? then f.values[key] else GetFallback(companyDefaults, key)
  {
  }

  /** Clearing a box and saving makes the company default the effective value. */
  lemma ClearThenSaveFallsBack(f: Form, companyDefaults: Option<Settings>, key: NumericKey,
                               raw: string, parsed: Option<real>)
    requires Text.Trim(raw) == ""
    ensures var cleared := f.(values := SetField(f.values, key, raw, parsed));
      GetEffective(Save(cleared, Stored).savedSettings, companyDefaults, key) == GetFallback(companyDefaults, key)
  {
    var cleared := f.(values := SetField(f.values, key, raw, parsed));
    SaveThenEffective(cleared, companyDefaults, key);
  }

  // ---------------------------------------------------------------- applying to the calculator

  /** The calculator's stored project data, as parsed from JSON. */
  type Stored = map<Exterior.Field, Value>

  /** The keys of `values`, as project fields. */
  function FieldsOf(values: Settings): set<Exterior.Field> {
    set k: Exterior.Field | k != Exterior.SquareFootage && k in values
  }

  /** A key of `values` that the merge writes: a number, or `undefined` with a company default. */
  predicate Writes(values: Settings, companyDefaults: Option<Settings>, key: NumericKey) {
    key in values && (values[key].Num? || (values[key].Undefined? && Lookup(companyDefaults, key) != Undefined))
  }

  /** What the merge writes for such a key. */
  function Written(values: Settings, companyDefaults: Option<Settings>, key: NumericKey): Value
    requires Writes(values, companyDefaults, key)
  {
    if values[key].Num? then values[key] else Lookup(companyDefaults, key)
  }

  predicate WritesField(values: Settings, companyDefaults: Option<Settings>, f: Exterior.Field) {
    f != Exterior.SquareFootage && Writes(values, companyDefaults, f)
  }

  /**
   * The merged project data: keys the merge does not write keep their stored
   * value (absent ones stay absent); the others take what it writes.
   */
  function Merged(existing: Stored, values: Settings, companyDefaults: Option<Settings>): (m: Stored)
    ensures forall f :: f in m <==> f in existing || WritesField(values, companyDefaults, f)
    ensures forall f :: f in m && WritesField(values, companyDefaults, f) ==> m[f] == Written(values, companyDefaults, f)
    ensures forall f :: f in m && !WritesField(values, companyDefaults, f) ==> m[f] == existing[f]
  {
    map f | f in existing.Keys + FieldsOf(values) && (f in existing || WritesField(values, companyDefaults, f)) ::
      if WritesField(values, companyDefaults, f) then Written(values, companyDefaults, f) else existing[f]
  }

  /** The loop's invariant: the keys already visited are merged, the others are as stored. */
  predicate MergedExcept(existing: Stored, values: Settings, companyDefaults: Option<Settings>,
                         rest: set<NumericKey>, merged: Stored)
  {
    && (forall f :: f in merged <==> f in existing || (WritesField(values, companyDefaults, f) && f !in rest))
    && (forall f :: f in merged ==>
          merged[f] == (if WritesField(values, companyDefaults, f) && f !in rest then Written(values, companyDefaults, f)
                        else existing[f]))
  }

  /** Visiting one more key keeps the invariant. */
  lemma MergeStep(existing: Stored, values: Settings, companyDefaults: Option<Settings>,
                  rest: set<NumericKey>, merged: Stored, k: NumericKey)
    requires k in rest && MergedExcept(existing, values, companyDefaults, rest, merged)
    ensures MergedExcept(existing, values, companyDefaults, rest - {k},
      if Writes(values, companyDefaults, k) then merged[k := Written(values, companyDefaults, k)] else merged)
  {
  }

  /** The visited keys being all of them, the invariant is the merge. */
  lemma MergeDone(existing: Stored, values: Settings, companyDefaults: Option<Settings>, merged: Stored)
    requires MergedExcept(existing, values, companyDefaults, {}, merged)
    ensures merged == Merged(existing, values, companyDefaults)
  {
  }

  /** The `forEach` of `applyToCalculator` over the keys of `values`. */
  method ApplyToCalculator(existing: Stored, values: Settings, companyDefaults: Option<Settings>)
    returns (merged: Stored)
    ensures merged == Merged(existing, values, companyDefaults)
  {
    merged := existing;
    var rest := values.Keys;
    while rest != {}
      invariant rest <= values.Keys
      invariant MergedExcept(existing, values, companyDefaults, rest, merged)
      decreases rest
    {
      var k :| k in rest;
      MergeStep(existing, values, companyDefaults, rest, merged, k);
      var v := values[k];
      if v.Num? {
        merged := merged[k := v];
      } else if v == Undefined && Lookup(companyDefaults, k) != Undefined {
        merged := merged[k := Lookup(companyDefaults, k)];
      }
      rest := rest - {k};
    }
    MergeDone(existing, values, companyDefaults, merged);
  }

  /** Applying the same settings twice gives what applying them once gives. */
  lemma MergedIdempotent(existing: Stored, values: Settings, companyDefaults: Option<Settings>)
    ensures Merged(Merged(existing, values, companyDefaults), values, companyDefaults)
            == Merged(existing, values, companyDefaults)
  {
  }

  /**
   * A box cleared in the form is absent from `values`, so applying leaves the
   * calculator's stored value in place rather than the company default.
   */
  lemma ClearedKeyKeepsStoredValue(existing: Stored, values: Settings, companyDefaults: Option<Settings>,
                                   key: NumericKey, raw: string, parsed: Option<real>)
    requires Text.Trim(raw) == ""
    ensures var m := Merged(existing, SetField(values, key, raw, parsed), companyDefaults);
      (key in m <==> key in existing) && (key in m ==> m[key] == existing[key])
  {
  }

  /** An empty form, or one whose values are all non-numbers, leaves the stored data as it is. */
  lemma MergeWithoutNumbersKeepsStored(existing: Stored, values: Settings)
    requires forall k :: k in values ==> values[k].NonNumber? || values[k].NaN?
    ensures Merged(existing, values, None) == existing
  {
  }
}
