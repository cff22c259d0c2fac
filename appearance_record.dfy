/** The six-field background-appearance record that both appearance stores
    hold, the shape of what they find in local storage, and the object
    spread `{ ...base, ...parsed }` with which both of them load it. */
module AppearanceRecord {
  import opened JsValues

  datatype Appearance = Appearance(
    enabled: bool,
    image: string,
    blur: real,
    brightness: real,
    applyToPlayPageOnly: bool,
    opacity: real)

  /** A parsed JSON value as far as the six appearance keys go: each key is
      present with its value or absent. A parsed value that is not an object
      (a number, `null`) has every key absent. */
  datatype Stored = Stored(
    enabled: Option<bool>,
    image: Option<string>,
    blur: Option<real>,
    brightness: Option<real>,
    applyToPlayPageOnly: Option<bool>,
    opacity: Option<real>)

  /** What `hydrate` finds under the storage key: nothing (no item, or the
      empty string, both falsy), text on which reading or `JSON.parse` throws,
      or a parsed value. */
  datatype Lookup = Missing | Unparsable | Parsed(record: Stored)

  function Pick<T>(o: Option<T>, d: T): T
  {
    match o
    case Some(v) => v
    case None => d
  }

  /** `{ ...base, ...parsed }` restricted to the six keys: a key present in
      `parsed` overrides the one in `base`. */
  function Overlay(base: Appearance, parsed: Stored): (r: Appearance)
    ensures OverriddenKeyByKey(r, base, parsed)
  {
    Appearance(
      Pick(parsed.enabled, base.enabled),
      Pick(parsed.image, base.image),
      Pick(parsed.blur, base.blur),
      Pick(parsed.brightness, base.brightness),
      Pick(parsed.applyToPlayPageOnly, base.applyToPlayPageOnly),
      Pick(parsed.opacity, base.opacity))
  }

  /** The record `JSON.parse(JSON.stringify(a))` yields: every key present. */
  function Snapshot(a: Appearance): (p: Stored)
    ensures Complete(p)
    ensures forall base :: Overlay(base, p) == a
  {
    Stored(Some(a.enabled), Some(a.image), Some(a.blur), Some(a.brightness),
           Some(a.applyToPlayPageOnly), Some(a.opacity))
  }

  /** All six keys are present. */
  predicate Complete(p: Stored)
  {
    p.enabled.Some? && p.image.Some? && p.blur.Some? && p.brightness.Some?
    && p.applyToPlayPageOnly.Some? && p.opacity.Some?
  }

  /** Each field of `r` is the stored value when its key is present, and the
      base value when it is absent. */
  predicate OverriddenKeyByKey(r: Appearance, base: Appearance, parsed: Stored)
  {
    && r.enabled == (if parsed.enabled.Some? then parsed.enabled.value else base.enabled)
    && r.image == (if parsed.image.Some? then parsed.image.value else base.image)
    && r.blur == (if parsed.blur.Some? then parsed.blur.value else base.blur)
    && r.brightness == (if parsed.brightness.Some? then parsed.brightness.value else base.brightness)
    && r.applyToPlayPageOnly == (if parsed.applyToPlayPageOnly.Some? then parsed.applyToPlayPageOnly.value else base.applyToPlayPageOnly)
    && r.opacity == (if parsed.opacity.Some? then parsed.opacity.value else base.opacity)
  }

  /** The six fields, to say which one an operation writes. */
  datatype Field = EnabledField | ImageField | BlurField | BrightnessField | ApplyToPlayPageOnlyField | OpacityField

  /** `a` and `b` agree on every field except possibly `f`. */
  predicate AgreeExcept(a: Appearance, b: Appearance, f: Field)
  {
    && (f != EnabledField ==> a.enabled == b.enabled)
    && (f != ImageField ==> a.image == b.image)
    && (f != BlurField ==> a.blur == b.blur)
    && (f != BrightnessField ==> a.brightness == b.brightness)
    && (f != ApplyToPlayPageOnlyField ==> a.applyToPlayPageOnly == b.applyToPlayPageOnly)
    && (f != OpacityField ==> a.opacity == b.opacity)
  }

  /** Overlaying the snapshot of a record restores that record, whatever the
      base: serialising and parsing loses nothing. */
  lemma OverlaySnapshot(base: Appearance, a: Appearance)
    ensures Complete(Snapshot(a))
    ensures Overlay(base, Snapshot(a)) == a
  {
  }
}
