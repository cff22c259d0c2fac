/** The unclamped appearance store of src/stores/appearance.js: the same six
    fields, but setters that assign their argument verbatim, a `hydrate`
    that falls back to the defaults both when nothing is stored and when
    reading or parsing throws, and a `persist` that writes an explicit
    six-field projection. */
module StoresAppearance {
  import opened JsValues
  import opened AppearanceRecord

  const StoreId: string := "appearance"
  const StorageKey: string := "app.appearance"

  /** The module constant `defaultState`. */
  const DefaultState: Appearance := Appearance(false, "", 0.0, 1.0, false, 1.0)

  /** One call of a setter action with its argument. */
  datatype Setter =
    | SetEnabled(enabled: bool)
    | SetImage(image: string)
    | ClearImage
    | SetBlur(blur: real)
    | SetBrightness(brightness: real)
    | SetApplyToPlayPageOnly(applyToPlayPageOnly: bool)
    | SetOpacity(opacity: real)

  /** The state after one setter call. */
  function Apply(a: Appearance, s: Setter): (r: Appearance)
    ensures AgreeExcept(a, r, FieldOf(s))
  {
    match s
    case SetEnabled(v) => a.(enabled := v)
    case SetImage(v) => a.(image := v)
    case ClearImage => a.(image := "")
    case SetBlur(v) => a.(blur := v)
    case SetBrightness(v) => a.(brightness := v)
    case SetApplyToPlayPageOnly(v) => a.(applyToPlayPageOnly := v)
    case SetOpacity(v) => a.(opacity := v)
  }

  /** The field a setter writes. */
  function FieldOf(s: Setter): Field
  {
    match s
    case SetEnabled(_) => EnabledField
    case SetImage(_) => ImageField
    case ClearImage => ImageField
    case SetBlur(_) => BlurField
    case SetBrightness(_) => BrightnessField
    case SetApplyToPlayPageOnly(_) => ApplyToPlayPageOnlyField
    case SetOpacity(_) => OpacityField
  }

  /** The state after `hydrate` finds `saved` under the storage key; it
      never depends on the state before. */
  function Hydrated(saved: Lookup): (r: Appearance)
    ensures saved.Parsed? ==> OverriddenKeyByKey(r, DefaultState, saved.record)
    ensures !saved.Parsed? ==> r == DefaultState
  {
    match saved
    case Parsed(p) => Overlay(DefaultState, p)
    case _ => DefaultState
  }

  /** The store together with what local storage holds under StorageKey. */
  datatype Session = Session(state: Appearance, saved: Lookup)

  datatype Action = Set(setter: Setter) | Hydrate | Persist

  function Step(s: Session, act: Action): Session
  {
    match act
    case Set(st) => s.(state := Apply(s.state, st))
    case Hydrate => s.(state := Hydrated(s.saved))
    case Persist => s.(saved := Parsed(Snapshot(s.state)))
  }

  /** The session after the actions `acts`, in order. */
  function Run(s: Session, acts: seq<Action>): Session
    decreases |acts|
  {
    if acts == [] then s else Run(Step(s, acts[0]), acts[1..])
  }

  predicate OnlySetters(acts: seq<Action>)
  {
    forall i :: 0 <= i < |acts| ==> acts[i].Set?
  }

  // ---------------------------------------------------------------------
  // Properties

  /** The defaults are enabled=false, image='', blur=0, brightness=1,
      applyToPlayPageOnly=false, opacity=1. */
  lemma DefaultValues()
    ensures !DefaultState.enabled && DefaultState.image == ""
    ensures DefaultState.blur == 0.0 && DefaultState.brightness == 1.0
    ensures !DefaultState.applyToPlayPageOnly && DefaultState.opacity == 1.0
  {
  }

  /** Each setter stores its argument as given, with no clamping or
      coercion, and leaves the other five fields alone. */
  lemma SettersVerbatim(a: Appearance, b: bool, t: string, x: real)
    ensures Apply(a, SetEnabled(b)) == a.(enabled := b)
    ensures Apply(a, SetImage(t)) == a.(image := t)
    ensures Apply(a, ClearImage) == a.(image := "")
    ensures Apply(a, SetBlur(x)) == a.(blur := x)
    ensures Apply(a, SetBrightness(x)) == a.(brightness := x)
    ensures Apply(a, SetApplyToPlayPageOnly(b)) == a.(applyToPlayPageOnly := b)
    ensures Apply(a, SetOpacity(x)) == a.(opacity := x)
  {
  }

  /** `persist` followed by `hydrate` restores all six fields. */
  lemma PersistHydrateRoundTrip(s: Session)
    ensures Step(Step(s, Persist), Hydrate) == Step(s, Persist)
    ensures Step(Step(s, Persist), Hydrate).state == s.state
  {
    OverlaySnapshot(DefaultState, s.state);
  }

  /** A setter call that is persisted survives a reload: after it, `persist`
      and `hydrate`, the field holds the setter's argument. */
  lemma SetterSurvivesReload(s: Session, st: Setter)
    ensures Run(s, [Set(st), Persist, Hydrate]).state == Apply(s.state, st)
  {
    var s1 := Step(s, Set(st));
    var s2 := Step(s1, Persist);
    var s3 := Step(s2, Hydrate);
    assert Run(s2, [Hydrate]) == s3 by { assert [Hydrate][1..] == []; }
    assert Run(s1, [Persist, Hydrate]) == s3 by { assert [Persist, Hydrate][1..] == [Hydrate]; }
    assert Run(s, [Set(st), Persist, Hydrate]) == s3 by { assert [Set(st), Persist, Hydrate][1..] == [Persist, Hydrate]; }
    PersistHydrateRoundTrip(s1);
  }

  /** Setter calls change the state only: what is stored stays as it was. */
  lemma {:induction false} SettersLeaveStorage(s: Session, acts: seq<Action>)
    requires OnlySetters(acts)
    ensures Run(s, acts).saved == s.saved
    decreases |acts|
  {
    if acts != [] {
      assert OnlySetters(acts[1..]) by {
        forall i | 0 <= i < |acts[1..]|
          ensures acts[1..][i].Set?
        {
          assert acts[1..][i] == acts[i + 1];
        }
      }
      SettersLeaveStorage(Step(s, acts[0]), acts[1..]);
    }
  }

  /** A reload after unsaved setter calls always discards them, whether or
      not anything is stored: the state is what a load before them would
      have given. */
  lemma ReloadDiscardsUnsavedChanges(s: Session, acts: seq<Action>)
    requires OnlySetters(acts)
    ensures Step(Run(s, acts), Hydrate).state == Step(s, Hydrate).state
  {
    SettersLeaveStorage(s, acts);
  }

  // ---------------------------------------------------------------------
  // The store object

  /** The store instance: `useAppearanceStore()` registered under StoreId. */
  class AppearanceStore {
    var enabled: bool
    var image: string
    var blur: real
    var brightness: real
    var applyToPlayPageOnly: bool
    var opacity: real

    /** The store's state as a record. */
    function Value(): Appearance
      reads this
    {
      Appearance(enabled, image, blur, brightness, applyToPlayPageOnly, opacity)
    }

    /** `state: () => ({ ...defaultState })`. */
    constructor ()
      ensures Value() == DefaultState
    {
      enabled, image, blur, brightness, applyToPlayPageOnly, opacity := false, "", 0.0, 1.0, false, 1.0;
    }

    /** `Object.assign(this, a)` with a record holding all six keys. */
    method AssignAll(a: Appearance)
      modifies this
      ensures Value() == a
    {
      enabled, image, blur, brightness, applyToPlayPageOnly, opacity :=
        a.enabled, a.image, a.blur, a.brightness, a.applyToPlayPageOnly, a.opacity;
    }

    method Hydrate(saved: Lookup)
      modifies this
      ensures Value() == Hydrated(saved)
      ensures !saved.Parsed? ==> Value() == DefaultState
      ensures saved.Parsed? ==> OverriddenKeyByKey(Value(), DefaultState, saved.record)
    {
      if saved.Parsed? {
        AssignAll(Overlay(DefaultState, saved.record));
        return;
      }
      AssignAll(DefaultState);
    }

    /** The key and the payload `persist` writes: exactly the six fields,
        from which `hydrate` restores the current state. */
    method Persist() returns (key: string, payload: Stored)
      ensures key == StorageKey
      ensures payload.enabled == Some(enabled) && payload.image == Some(image)
      ensures payload.blur == Some(blur) && payload.brightness == Some(brightness)
      ensures payload.applyToPlayPageOnly == Some(applyToPlayPageOnly) && payload.opacity == Some(opacity)
      ensures payload == Snapshot(Value())
      ensures Hydrated(Parsed(payload)) == Value()
    {
      payload := Stored(Some(enabled), Some(image), Some(blur), Some(brightness),
                        Some(applyToPlayPageOnly), Some(opacity));
      key := StorageKey;
      OverlaySnapshot(DefaultState, Value());
    }

    method SetEnabled(val: bool)
      modifies this
      ensures Value() == Apply(old(Value()), Setter.SetEnabled(val))
    {
      enabled := val;
    }

    method SetImage(val: string)
      modifies this
      ensures Value() == Apply(old(Value()), Setter.SetImage(val))
    {
      image := val;
    }

    method ClearImage()
      modifies this
      ensures Value() == Apply(old(Value()), Setter.ClearImage)
    {
      image := "";
    }

    method SetBlur(val: real)
      modifies this
      ensures Value() == Apply(old(Value()), Setter.SetBlur(val))
    {
      blur := val;
    }

    method SetBrightness(val: real)
      modifies this
      ensures Value() == Apply(old(Value()), Setter.SetBrightness(val))
    {
      brightness := val;
    }

    method SetApplyToPlayPageOnly(val: bool)
      modifies this
      ensures Value() == Apply(old(Value()), Setter.SetApplyToPlayPageOnly(val))
    {
      applyToPlayPageOnly := val;
    }

    method SetOpacity(val: real)
      modifies this
      ensures Value() == Apply(old(Value()), Setter.SetOpacity(val))
    {
      opacity := val;
    }
  }
}
