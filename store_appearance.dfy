/** The clamping appearance store of src/store/appearance.js: six fields,
    setters that coerce their argument (booleans by truthiness, numbers by
    `Math.min(hi, Math.max(lo, Number(v) || 0))`), `hydrate`, which merges a
    stored record over the defaults, and `persist`, which writes the whole
    state. `Number(v)` is taken as already applied: the numeric setters
    receive a JavaScript number. */
module StoreAppearance {
  import opened JsValues
  import opened AppearanceRecord

  const StoreId: string := "appearance"
  const StorageKey: string := "app.appearance"

  const BlurMin: real := 0.0
  const BlurMax: real := 30.0
  const BrightnessMin: real := 0.2
  const BrightnessMax: real := 1.8
  const OpacityMin: real := 0.0
  const OpacityMax: real := 1.0

  /** `defaultState()`. */
  function DefaultState(): (d: Appearance)
    ensures InRange(d)
  {
    Appearance(false, "", 0.0, 1.0, false, 1.0)
  }

  /** `Math.min(hi, Math.max(lo, Number(value) || 0))`: always a finite
      number within [lo, hi]; the number itself when it already lies there;
      the nearer bound when it lies outside; and the clamp of 0 when it is
      falsy (0 or NaN). */
  function Clamp(lo: real, hi: real, value: JsNumber): (r: real)
    requires lo <= hi
    ensures lo <= r <= hi
    ensures value.Finite? && lo <= value.x <= hi ==> r == value.x
    ensures value.Finite? && value.x < lo ==> r == lo
    ensures value.Finite? && hi < value.x ==> r == hi
    ensures value.PosInfinity? ==> r == hi
    ensures value.NegInfinity? ==> r == lo
    ensures value.NaN? ==> r == (if 0.0 < lo then lo else if hi < 0.0 then hi else 0.0)
  {
    var num := Or(Number(value), Number(Finite(0.0))).n;
    var low := MathMax(Finite(lo), num);
    var m := MathMin(Finite(hi), low);
    assert low.Finite? || low.PosInfinity?;
    match m
    case Finite(x) => x
  }

  /** Every numeric field lies within its setter's bounds. */
  predicate InRange(a: Appearance)
  {
    && BlurMin <= a.blur <= BlurMax
    && BrightnessMin <= a.brightness <= BrightnessMax
    && OpacityMin <= a.opacity <= OpacityMax
  }

  /** Every numeric key present in a stored record lies within its bounds. */
  predicate StoredInRange(p: Stored)
  {
    && (p.blur.Some? ==> BlurMin <= p.blur.value <= BlurMax)
    && (p.brightness.Some? ==> BrightnessMin <= p.brightness.value <= BrightnessMax)
    && (p.opacity.Some? ==> OpacityMin <= p.opacity.value <= OpacityMax)
  }

  predicate LookupInRange(l: Lookup)
  {
    l.Parsed? ==> StoredInRange(l.record)
  }

  /** One call of a setter action with its argument. */
  datatype Setter =
    | SetEnabled(value: JsValue)
    | SetImage(dataUrl: JsValue)
    | ClearImage
    | SetBlur(blur: JsNumber)
    | SetBrightness(brightness: JsNumber)
    | SetApplyToPlayPageOnly(value: JsValue)
    | SetOpacity(opacity: JsNumber)

  /** `setImage` is given a data URL: a string, or a falsy value. */
  predicate Admissible(s: Setter)
  {
    s.SetImage? ==> s.dataUrl.Str? || !Truthy(s.dataUrl)
  }

  /** The state after one setter call. */
  function Apply(a: Appearance, s: Setter): (r: Appearance)
    requires Admissible(s)
    ensures AgreeExcept(a, r, FieldOf(s))
    ensures InRange(a) ==> InRange(r)
  {
    match s
    case SetEnabled(v) => a.(enabled := Truthy(v))
    case SetImage(u) => a.(image := Or(u, Str("")).s)
    case ClearImage => a.(image := "")
    case SetBlur(v) => a.(blur := Clamp(BlurMin, BlurMax, v))
    case SetBrightness(v) => a.(brightness := Clamp(BrightnessMin, BrightnessMax, v))
    case SetApplyToPlayPageOnly(v) => a.(applyToPlayPageOnly := Truthy(v))
    case SetOpacity(v) => a.(opacity := Clamp(OpacityMin, OpacityMax, v))
  }

  /** The state after `hydrate` finds `saved` under the storage key. */
  function Hydrated(current: Appearance, saved: Lookup): (r: Appearance)
    ensures saved.Parsed? ==> OverriddenKeyByKey(r, DefaultState(), saved.record)
    ensures saved.Missing? ==> r == current
    ensures saved.Unparsable? ==> r == DefaultState()
  {
    match saved
    case Missing => current
    case Unparsable => DefaultState()
    case Parsed(p) => Overlay(DefaultState(), p)
  }

  /** The store together with what local storage holds under StorageKey. */
  datatype Session = Session(state: Appearance, saved: Lookup)

  datatype Action = Set(setter: Setter) | Hydrate | Persist

  predicate AllAdmissible(acts: seq<Action>)
  {
    forall i :: 0 <= i < |acts| && acts[i].Set? ==> Admissible(acts[i].setter)
  }

  function Step(s: Session, act: Action): Session
    requires act.Set? ==> Admissible(act.setter)
  {
    match act
    case Set(st) => s.(state := Apply(s.state, st))
    case Hydrate => s.(state := Hydrated(s.state, s.saved))
    case Persist => s.(saved := Parsed(Snapshot(s.state)))
  }

  /** The session after the actions `acts`, in order. */
  function Run(s: Session, acts: seq<Action>): Session
    requires AllAdmissible(acts)
    decreases |acts|
  {
    if acts == [] then s
    else
      assert acts[0].Set? ==> Admissible(acts[0].setter);
      Run(Step(s, acts[0]), acts[1..])
  }

  predicate OnlySetters(acts: seq<Action>)
  {
    forall i :: 0 <= i < |acts| ==> acts[i].Set?
  }

  // ---------------------------------------------------------------------
  // Setters

  /** What the caller of each numeric setter gets: a number in range is
      stored as given; a falsy one (0, or the NaN that `Number()` gives for
      'abc', undefined or a plain object) stores
      0 for blur and opacity and 0.2 for brightness. */
  lemma NumericSetters(a: Appearance, v: JsNumber)
    ensures BlurMin <= Apply(a, SetBlur(v)).blur <= BlurMax
    ensures BrightnessMin <= Apply(a, SetBrightness(v)).brightness <= BrightnessMax
    ensures OpacityMin <= Apply(a, SetOpacity(v)).opacity <= OpacityMax
    ensures v.Finite? && BlurMin <= v.x <= BlurMax ==> Apply(a, SetBlur(v)).blur == v.x
    ensures v.Finite? && BrightnessMin <= v.x <= BrightnessMax ==> Apply(a, SetBrightness(v)).brightness == v.x
    ensures v.Finite? && OpacityMin <= v.x <= OpacityMax ==> Apply(a, SetOpacity(v)).opacity == v.x
    ensures !Truthy(Number(v)) ==>
      && Apply(a, SetBlur(v)).blur == 0.0
      && Apply(a, SetBrightness(v)).brightness == 0.2
      && Apply(a, SetOpacity(v)).opacity == 0.0
  {
  }

  /** `setEnabled` and `setApplyToPlayPageOnly` store the truthiness of
      their argument; `setImage` stores a truthy data URL and '' otherwise;
      `clearImage` always stores ''. */
  lemma CoercingSetters(a: Appearance, v: JsValue)
    ensures Apply(a, SetEnabled(v)).enabled <==> Truthy(v)
    ensures Apply(a, SetApplyToPlayPageOnly(v)).applyToPlayPageOnly <==> Truthy(v)
    ensures Apply(a, ClearImage).image == ""
    ensures !Truthy(v) ==> Apply(a, SetImage(v)).image == ""
    ensures v.Str? ==> Apply(a, SetImage(v)).image == v.s
  {
  }

  /** The field a setter writes. */
  function FieldOf(s: Setter): Field
  {
    match s
    case SetEnabled(_) => EnabledField
    case SetImage(_) => ImageField
    case ClearImage => ImageField
    case SetBlur(_) => BlurField
    case SetBrightness(_) => BrightnessField
    case SetApplyToPlayPageOnly(_) => ApplyToPlayPageOnlyField
    case SetOpacity(_) => OpacityField
  }

  /** The same setter called again with the value it stored. */
  function Readback(a: Appearance, s: Setter): Setter
  {
    match s
    case SetEnabled(_) => SetEnabled(Bool(a.enabled))
    case SetImage(_) => SetImage(Str(a.image))
    case ClearImage => ClearImage
    case SetBlur(_) => SetBlur(Finite(a.blur))
    case SetBrightness(_) => SetBrightness(Finite(a.brightness))
    case SetApplyToPlayPageOnly(_) => SetApplyToPlayPageOnly(Bool(a.applyToPlayPageOnly))
    case SetOpacity(_) => SetOpacity(Finite(a.opacity))
  }

  /** The coercions are idempotent: calling a setter again with the value
      it stored leaves the state unchanged. */
  lemma SetterIdempotent(a: Appearance, s: Setter)
    requires Admissible(s)
    ensures Admissible(Readback(Apply(a, s), s))
    ensures Apply(Apply(a, s), Readback(Apply(a, s), s)) == Apply(a, s)
  {
  }

  // ---------------------------------------------------------------------
  // hydrate and persist

  /** `persist` followed by `hydrate` restores the state. */
  lemma PersistHydrateRoundTrip(s: Session)
    ensures Step(Step(s, Persist), Hydrate) == Step(s, Persist)
    ensures Step(Step(s, Persist), Hydrate).state == s.state
  {
    OverlaySnapshot(DefaultState(), s.state);
  }

  /** `hydrate` does not clamp: it keeps the bounds exactly when what it
      loads keeps them. */
  lemma HydrateInRangeIff(current: Appearance, saved: Lookup)
    requires InRange(current)
    ensures InRange(Hydrated(current, saved)) <==> LookupInRange(saved)
  {
  }

  /** A stored blur of 100, written by something other than this store,
      is loaded as it is. */
  lemma HydrateLoadsUnclampedBlur(current: Appearance)
    ensures Hydrated(current, Parsed(Stored(None, None, Some(100.0), None, None, None))).blur == 100.0
  {
  }

  // ---------------------------------------------------------------------
  // Sessions

  lemma StepKeepsInRange(s: Session, act: Action)
    requires act.Set? ==> Admissible(act.setter)
    requires InRange(s.state) && LookupInRange(s.saved)
    ensures InRange(Step(s, act).state) && LookupInRange(Step(s, act).saved)
  {
    match act
    case Set(st) => NumericSetters(s.state, if st.SetBlur? then st.blur else if st.SetBrightness? then st.brightness else if st.SetOpacity? then st.opacity else NaN);
    case Hydrate => HydrateInRangeIff(s.state, s.saved);
    case Persist =>
  }

  /** The bounds are an invariant of the store and its storage together:
      once both keep them (as on a page load with nothing stored, or with
      what this store persisted), every sequence of setter calls, loads and
      saves keeps them. */
  lemma {:induction false} RunKeepsInRange(s: Session, acts: seq<Action>)
    requires AllAdmissible(acts)
    requires InRange(s.state) && LookupInRange(s.saved)
    ensures InRange(Run(s, acts).state) && LookupInRange(Run(s, acts).saved)
    decreases |acts|
  {
    if acts != [] {
      assert acts[0].Set? ==> Admissible(acts[0].setter);
      StepKeepsInRange(s, acts[0]);
      assert AllAdmissible(acts[1..]) by {
        forall i | 0 <= i < |acts[1..]| && acts[1..][i].Set?
          ensures Admissible(acts[1..][i].setter)
        {
          assert acts[1..][i] == acts[i + 1];
        }
      }
      RunKeepsInRange(Step(s, acts[0]), acts[1..]);
    }
  }

  /** The default state keeps the bounds, so a page load with nothing or
      garbage stored starts a session that keeps them for ever. */
  lemma PageLoadKeepsInRange(saved: Lookup, acts: seq<Action>)
    requires AllAdmissible(acts)
    requires LookupInRange(saved)
    ensures InRange(Run(Session(DefaultState(), saved), acts).state)
  {
    RunKeepsInRange(Session(DefaultState(), saved), acts);
  }

  /** Setter calls change the state only: what is stored stays as it was. */
  lemma {:induction false} SettersLeaveStorage(s: Session, acts: seq<Action>)
    requires AllAdmissible(acts) && OnlySetters(acts)
    ensures Run(s, acts).saved == s.saved
    decreases |acts|
  {
    if acts != [] {
      assert acts[0].Set? ==> Admissible(acts[0].setter);
      assert AllAdmissible(acts[1..]) && OnlySetters(acts[1..]) by {
        forall i | 0 <= i < |acts[1..]|
          ensures acts[1..][i].Set? && Admissible(acts[1..][i].setter)
        {
          assert acts[1..][i] == acts[i + 1];
        }
      }
      SettersLeaveStorage(Step(s, acts[0]), acts[1..]);
    }
  }

  /** A reload after unsaved setter calls: with something stored, `hydrate`
      discards them and gives what a load before them would have given;
      with nothing stored it keeps them. */
  lemma ReloadAfterUnsavedChanges(s: Session, acts: seq<Action>)
    requires AllAdmissible(acts) && OnlySetters(acts)
    ensures !s.saved.Missing? ==> Step(Run(s, acts), Hydrate).state == Step(s, Hydrate).state
    ensures s.saved.Missing? ==> Step(Run(s, acts), Hydrate) == Run(s, acts)
  {
    SettersLeaveStorage(s, acts);
  }

  // ---------------------------------------------------------------------
  // The store object

  /** The store instance: `useAppearanceStore()` registered under StoreId. */
  class AppearanceStore {
    var enabled: bool
    var image: string
    var blur: real
    var brightness: real
    var applyToPlayPageOnly: bool
    var opacity: real

    /** The store's state as a record. */
    function Value(): Appearance
      reads this
    {
      Appearance(enabled, image, blur, brightness, applyToPlayPageOnly, opacity)
    }

    /** `state: defaultState`. */
    constructor ()
      ensures Value() == DefaultState()
      ensures InRange(Value())
    {
      enabled, image, blur, brightness, applyToPlayPageOnly, opacity := false, "", 0.0, 1.0, false, 1.0;
    }

    /** `Object.assign(this.$state, a)` with a record holding all six keys. */
    method AssignAll(a: Appearance)
      modifies this
      ensures Value() == a
    {
      enabled, image, blur, brightness, applyToPlayPageOnly, opacity :=
        a.enabled, a.image, a.blur, a.brightness, a.applyToPlayPageOnly, a.opacity;
    }

    method Hydrate(saved: Lookup)
      modifies this
      ensures Value() == Hydrated(old(Value()), saved)
      ensures saved.Missing? ==> Value() == old(Value())
      ensures saved.Unparsable? ==> Value() == DefaultState()
      ensures saved.Parsed? ==> OverriddenKeyByKey(Value(), DefaultState(), saved.record)
    {
      match saved
      case Missing =>
      case Unparsable =>
        AssignAll(DefaultState());
      case Parsed(p) =>
        AssignAll(Overlay(DefaultState(), p));
    }

    /** The key and the record `persist` writes: every key, and what
        `hydrate` restores the current state from. */
    method Persist() returns (key: string, payload: Stored)
      ensures key == StorageKey
      ensures Complete(payload)
      ensures forall current :: Hydrated(current, Parsed(payload)) == Value()
    {
      key := StorageKey;
      payload := Snapshot(Value());
      OverlaySnapshot(DefaultState(), Value());
    }

    method SetEnabled(value: JsValue)
      modifies this
      ensures Value() == Apply(old(Value()), Setter.SetEnabled(value))
      ensures enabled == Truthy(value)
    {
      enabled := Truthy(value);
    }

    method SetImage(dataUrl: JsValue)
      requires dataUrl.Str? || !Truthy(dataUrl)
      modifies this
      ensures Value() == Apply(old(Value()), Setter.SetImage(dataUrl))
      ensures image == if Truthy(dataUrl) then dataUrl.s else ""
    {
      image := Or(dataUrl, Str("")).s;
    }

    method ClearImage()
      modifies this
      ensures Value() == Apply(old(Value()), Setter.ClearImage)
      ensures image == ""
    {
      image := "";
    }

    method SetBlur(value: JsNumber)
      modifies this
      ensures Value() == Apply(old(Value()), Setter.SetBlur(value))
      ensures BlurMin <= blur <= BlurMax
    {
      blur := Clamp(BlurMin, BlurMax, value);
    }

    method SetBrightness(value: JsNumber)
      modifies this
      ensures Value() == Apply(old(Value()), Setter.SetBrightness(value))
      ensures BrightnessMin <= brightness <= BrightnessMax
    {
      brightness := Clamp(BrightnessMin, BrightnessMax, value);
    }

    method SetApplyToPlayPageOnly(value: JsValue)
      modifies this
      ensures Value() == Apply(old(Value()), Setter.SetApplyToPlayPageOnly(value))
      ensures applyToPlayPageOnly == Truthy(value)
    {
      applyToPlayPageOnly := Truthy(value);
    }

    method SetOpacity(value: JsNumber)
      modifies this
      ensures Value() == Apply(old(Value()), Setter.SetOpacity(value))
      ensures OpacityMin <= opacity <= OpacityMax
    {
      opacity := Clamp(OpacityMin, OpacityMax, value);
    }
  }
}
