/**
 * `Sound`: two tag-keyed registries, the loaded sound effects and one
 * playable instance of each. The audio engine and the decoding of wave
 * files are not modelled; effects and instances are opaque objects that
 * remember where they came from.
 */
module SoundRegistry {

  /** A sound effect loaded from a wave file. */
  class SoundEffect {
    const file: string

    constructor (file: string)
      ensures this.file == file
    {
      this.file := file;
    }
  }

  /** A playable instance created from one sound effect. */
  class SoundEffectInstance {
    const effect: SoundEffect

    constructor (effect: SoundEffect)
      ensures this.effect == effect
    {
      this.effect := effect;
    }
  }

  class Sound {
    var soundEffects: map<string, SoundEffect>
    var soundEffectInstances: map<string, SoundEffectInstance>

    /** Both registries hold the same tags, and each instance was made from its tag's effect. */
    ghost predicate Valid()
      reads this
    {
      && soundEffects.Keys == soundEffectInstances.Keys
      && forall tag :: tag in soundEffectInstances ==> soundEffectInstances[tag].effect == soundEffects[tag]
    }

    constructor ()
      ensures Valid()
      ensures soundEffects == map[] && soundEffectInstances == map[]
    {
      soundEffects := map[];
      soundEffectInstances := map[];
    }

    /**
     * Loads `fileName` under `tag` unless the tag is taken. A taken tag is
     * refused and nothing changes; a new tag gets a fresh effect and a
     * fresh instance of it, and every other entry is kept.
     */
    method LoadWave(fileName: string, tag: string) returns (ok: bool)
      requires Valid()
      modifies this
      ensures Valid()
      ensures ok <==> tag !in old(soundEffectInstances)
      ensures !ok ==> soundEffects == old(soundEffects) && soundEffectInstances == old(soundEffectInstances)
      ensures ok ==>
        && soundEffects.Keys == old(soundEffects.Keys) + {tag}
        && fresh(soundEffects[tag]) && soundEffects[tag].file == fileName
        && fresh(soundEffectInstances[tag])
      ensures forall t :: t != tag && t in old(soundEffects) ==> t in soundEffects && soundEffects[t] == old(soundEffects[t])
      ensures forall t :: t != tag && t in old(soundEffectInstances) ==>
        t in soundEffectInstances && soundEffectInstances[t] == old(soundEffectInstances[t])
    {
      if tag in soundEffectInstances {
        return false;
      }
      var effect := new SoundEffect(fileName);
      soundEffects := soundEffects[tag := effect];
      var instance := new SoundEffectInstance(soundEffects[tag]);
      soundEffectInstances := soundEffectInstances[tag := instance];
      ok := true;
    }

    /** The instance registered under `tag`, or null when there is none. */
    function GetAudio(tag: string): (instance: SoundEffectInstance?)
      requires Valid()
      reads this
      ensures instance == null <==> tag !in soundEffectInstances
      ensures instance != null ==> instance == soundEffectInstances[tag]
      ensures instance != null ==> tag in soundEffects && instance.effect == soundEffects[tag]
    {
      if tag !in soundEffectInstances then null else soundEffectInstances[tag]
    }
  }

  /**
   * After `LoadWave`, the tag always resolves: to an instance of the new
   * file when the load was accepted, and otherwise to the instance that was
   * there before.
   */
  method LoadThenGet(sound: Sound, fileName: string, tag: string)
    returns (ok: bool, instance: SoundEffectInstance?)
    requires sound.Valid()
    modifies sound
    ensures sound.Valid()
    ensures instance != null
    ensures ok ==> instance.effect.file == fileName
    ensures !ok ==> instance == old(sound.GetAudio(tag))
  {
    ok := sound.LoadWave(fileName, tag);
    instance := sound.GetAudio(tag);
  }
}
