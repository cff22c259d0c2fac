/** The page-wide audio environment of src/utils/lyricVisualizerAudio.js:
    one record, kept in a property of the global object under a fixed key,
    created with default fields on first access and handed out, the same
    object, on every access after that. Keeping it on the global object
    rather than in module state lets it outlive a reload of the modules that
    use it. */
module LyricVisualizerAudio {

  /** The global property that holds the environment. */
  const GlobalEnvKey: string := "__hydrogenLyricVisualizerAudioEnv__"

  /** The shared environment. Its audio context and analyser start out
      absent; the cache maps an audio element to the source node that wraps
      it (a `WeakMap` in the source; reclamation is not modelled). */
  class AudioEnv {
    var audioContext: object?
    var analyser: object?
    var analyserConnected: bool
    var audioSourceCache: map<object, object>

    /** The fields `createDefaultAudioEnv` gives. */
    predicate IsDefault()
      reads this
    {
      audioContext == null && analyser == null && !analyserConnected && audioSourceCache == map[]
    }

    /** `createDefaultAudioEnv()`. */
    constructor ()
      ensures audioContext == null && analyser == null
      ensures !analyserConnected && audioSourceCache == map[]
      ensures IsDefault()
    {
      audioContext := null;
      analyser := null;
      analyserConnected := false;
      audioSourceCache := map[];
    }
  }

  /** The global object (`window`, or `globalThis` where there is no
      window), as far as its property GlobalEnvKey goes: `envSlot` is that
      property, null while it is unset. */
  class GlobalScope {
    var envSlot: AudioEnv?

    /** A page before any access: the property is unset. */
    constructor ()
      ensures envSlot == null
    {
      envSlot := null;
    }

    /** `getLyricVisualizerAudioEnv()`: fills the slot with a fresh default
        environment when it is empty, and returns what the slot holds. An
        environment already there is returned as it is, with every field it
        has, and nothing but the slot is ever written. */
    method GetLyricVisualizerAudioEnv() returns (env: AudioEnv)
      modifies this`envSlot
      ensures envSlot == env
      ensures old(envSlot) == null ==> fresh(env) && env.IsDefault()
      ensures old(envSlot) != null ==> env == old(envSlot) && unchanged(env)
    {
      if envSlot == null {
        envSlot := new AudioEnv();
      }
      env := envSlot;
    }
  }

  /** Two consumers, or one module before and after a reload, asking in
      turn: both get the very same object, and when the page already had
      one, that is the one they get, untouched. */
  method TwoAccesses(scope: GlobalScope) returns (first: AudioEnv, second: AudioEnv)
    modifies scope`envSlot
    ensures first == second && scope.envSlot == first
    ensures old(scope.envSlot) == null ==> fresh(first) && first.IsDefault()
    ensures old(scope.envSlot) != null ==> first == old(scope.envSlot) && unchanged(first)
  {
    first := scope.GetLyricVisualizerAudioEnv();
    second := scope.GetLyricVisualizerAudioEnv();
  }
}
