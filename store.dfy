/**
 * The two persisted client stores: the settings store (audio, graphics, camera, effects and UI
 * preferences, each changed by a setter or a toggle) and the character store (trainer sprite,
 * title and companion), whose rehydration validates what was stored. Store state is a record;
 * every action is a functional field update of it.
 */
module Store {
  import opened Wrappers
  import opened Chess

  datatype ShadowQuality = Off | Low | Medium | High

  /** The data fields of `SettingsState`. JavaScript numbers are reals here. */
  datatype Settings = Settings(
    volume: real, musicVolume: real, sfxVolume: real, muteInBackground: bool,
    resolutionScale: real, shadowQuality: ShadowQuality, enableBloom: bool, enableSSAO: bool,
    enableAA: bool, fpsCap: real,
    cameraSensitivity: real, autoRotateCamera: bool, animationSpeed: real,
    enableParallax: bool, enableScreenShake: bool, enableParticles: bool,
    showCoordinates: bool, highlightColor: string, enableHints: bool)

  /** The settings a first visit starts from. */
  const DefaultSettings: Settings := Settings(
    0.5, 0.5, 1.0, true,
    1.0, Medium, true, true, false, 60.0,
    1.0, false, 1.0,
    true, false, true,
    true, "#fbbf24", false)

  /** The store's initial settings. */
  lemma InitialSettings()
    ensures DefaultSettings.volume == 0.5 && DefaultSettings.shadowQuality == Medium
    ensures DefaultSettings.fpsCap == 60.0 && !DefaultSettings.enableScreenShake && !DefaultSettings.enableHints
  {
  }

  /** The store's actions: one setter per valued field, one toggle per boolean field. */
  datatype Action =
    | SetVolume(v: real) | SetMusicVolume(v: real) | SetSfxVolume(v: real) | ToggleMuteInBackground
    | SetResolutionScale(v: real) | SetShadowQuality(q: ShadowQuality) | ToggleBloom | ToggleSSAO | ToggleAA
    | SetFpsCap(v: real)
    | SetCameraSensitivity(v: real) | ToggleAutoRotateCamera | SetAnimationSpeed(v: real)
    | ToggleParallax | ToggleScreenShake | ToggleParticles
    | ToggleShowCoordinates | SetHighlightColor(c: string) | ToggleHints
  {
    predicate IsToggle() {
      ToggleMuteInBackground? || ToggleBloom? || ToggleSSAO? || ToggleAA? || ToggleAutoRotateCamera? ||
      ToggleParallax? || ToggleScreenShake? || ToggleParticles? || ToggleShowCoordinates? || ToggleHints?
    }
  }

  /** `set(...)` of one action. */
  function Apply(s: Settings, a: Action): Settings {
    match a
    case SetVolume(v) => s.(volume := v)
    case SetMusicVolume(v) => s.(musicVolume := v)
    case SetSfxVolume(v) => s.(sfxVolume := v)
    case ToggleMuteInBackground => s.(muteInBackground := !s.muteInBackground)
    case SetResolutionScale(v) => s.(resolutionScale := v)
    case SetShadowQuality(q) => s.(shadowQuality := q)
    case ToggleBloom => s.(enableBloom := !s.enableBloom)
    case ToggleSSAO => s.(enableSSAO := !s.enableSSAO)
    case ToggleAA => s.(enableAA := !s.enableAA)
    case SetFpsCap(v) => s.(fpsCap := v)
    case SetCameraSensitivity(v) => s.(cameraSensitivity := v)
    case ToggleAutoRotateCamera => s.(autoRotateCamera := !s.autoRotateCamera)
    case SetAnimationSpeed(v) => s.(animationSpeed := v)
    case ToggleParallax => s.(enableParallax := !s.enableParallax)
    case ToggleScreenShake => s.(enableScreenShake := !s.enableScreenShake)
    case ToggleParticles => s.(enableParticles := !s.enableParticles)
    case ToggleShowCoordinates => s.(showCoordinates := !s.showCoordinates)
    case SetHighlightColor(c) => s.(highlightColor := c)
    case ToggleHints => s.(enableHints := !s.enableHints)
  }

  /** The names of the settings fields, for reading any one of them. */
  datatype Field =
    | Volume | MusicVolume | SfxVolume | MuteInBackground
    | ResolutionScale | Shadow | Bloom | SSAO | AA | FpsCap
    | CameraSensitivity | AutoRotateCamera | AnimationSpeed
    | Parallax | ScreenShake | Particles
    | ShowCoordinates | HighlightColor | Hints

  datatype Value = Number(n: real) | Flag(b: bool) | Quality(q: ShadowQuality) | Text(t: string)

  /** The value of field `f`. */
  function Get(s: Settings, f: Field): Value {
    match f
    case Volume => Number(s.volume)
    case MusicVolume => Number(s.musicVolume)
    case SfxVolume => Number(s.sfxVolume)
    case MuteInBackground => Flag(s.muteInBackground)
    case ResolutionScale => Number(s.resolutionScale)
    case Shadow => Quality(s.shadowQuality)
    case Bloom => Flag(s.enableBloom)
    case SSAO => Flag(s.enableSSAO)
    case AA => Flag(s.enableAA)
    case FpsCap => Number(s.fpsCap)
    case CameraSensitivity => Number(s.cameraSensitivity)
    case AutoRotateCamera => Flag(s.autoRotateCamera)
    case AnimationSpeed => Number(s.animationSpeed)
    case Parallax => Flag(s.enableParallax)
    case ScreenShake => Flag(s.enableScreenShake)
    case Particles => Flag(s.enableParticles)
    case ShowCoordinates => Flag(s.showCoordinates)
    case HighlightColor => Text(s.highlightColor)
    case Hints => Flag(s.enableHints)
  }

  /** The one field an action writes. */
  function Writes(a: Action): Field {
    match a
    case SetVolume(_) => Volume
    case SetMusicVolume(_) => MusicVolume
    case SetSfxVolume(_) => SfxVolume
    case ToggleMuteInBackground => MuteInBackground
    case SetResolutionScale(_) => ResolutionScale
    case SetShadowQuality(_) => Shadow
    case ToggleBloom => Bloom
    case ToggleSSAO => SSAO
    case ToggleAA => AA
    case SetFpsCap(_) => FpsCap
    case SetCameraSensitivity(_) => CameraSensitivity
    case ToggleAutoRotateCamera => AutoRotateCamera
    case SetAnimationSpeed(_) => AnimationSpeed
    case ToggleParallax => Parallax
    case ToggleScreenShake => ScreenShake
    case ToggleParticles => Particles
    case ToggleShowCoordinates => ShowCoordinates
    case SetHighlightColor(_) => HighlightColor
    case ToggleHints => Hints
  }

  /** The value a setter writes. */
  function Written(a: Action): Value
    requires !a.IsToggle()
  {
    match a
    case SetVolume(v) => Number(v)
    case SetMusicVolume(v) => Number(v)
    case SetSfxVolume(v) => Number(v)
    case SetResolutionScale(v) => Number(v)
    case SetShadowQuality(q) => Quality(q)
    case SetFpsCap(v) => Number(v)
    case SetCameraSensitivity(v) => Number(v)
    case SetAnimationSpeed(v) => Number(v)
    case SetHighlightColor(c) => Text(c)
  }

  /** A setter leaves every field but its own as it was. */
  lemma SetterKeepsOthers(s: Settings, a: Action, f: Field)
    requires !a.IsToggle() && f != Writes(a)
    ensures Get(Apply(s, a), f) == Get(s, f)
  {
    match a {
      case SetVolume(_) =>
      case SetMusicVolume(_) =>
      case SetSfxVolume(_) =>
      case SetResolutionScale(_) =>
      case SetShadowQuality(_) =>
      case SetFpsCap(_) =>
      case SetCameraSensitivity(_) =>
      case SetAnimationSpeed(_) =>
      case SetHighlightColor(_) =>
      case _ =>
    }
  }

  /** A toggle leaves every field but its own as it was. */
  lemma ToggleKeepsOthers(s: Settings, a: Action, f: Field)
    requires a.IsToggle() && f != Writes(a)
    ensures Get(Apply(s, a), f) == Get(s, f)
  {
    match a {
      case ToggleMuteInBackground =>
      case ToggleBloom =>
      case ToggleSSAO =>
      case ToggleAA =>
      case ToggleAutoRotateCamera =>
      case ToggleParallax =>
      case ToggleScreenShake =>
      case ToggleParticles =>
      case ToggleShowCoordinates =>
      case ToggleHints =>
      case _ =>
    }
  }

  /** A setter stores exactly its argument in its field. */
  lemma SetterWrites(s: Settings, a: Action)
    requires !a.IsToggle()
    ensures Get(Apply(s, a), Writes(a)) == Written(a)
  {
  }

  /** A toggle negates its boolean field, and toggling twice restores the settings. */
  lemma ToggleNegates(s: Settings, a: Action)
    requires a.IsToggle()
    ensures Get(s, Writes(a)).Flag? && Get(Apply(s, a), Writes(a)) == Flag(!Get(s, Writes(a)).b)
    ensures Apply(Apply(s, a), a) == s
  {
  }

  /** The ids of `TRAINER_SPRITES`. */
  const TrainerSprites: seq<string> := ["red", "blue", "ace", "ranger", "lass", "youngster", "hiker", "rocket"]

  /** The ids of `COMPANION_POKEMON`. */
  const CompanionPokemon: seq<int> := [25, 133, 1, 4, 7, 150, 384, 249, 151, 448, 94, 143, 571, 445, 6, 376]

  /** The character a first visit starts from: Red, a Pokémon Trainer, with Pikachu (25). */
  const DefaultCharacter: CharacterData := CharacterData("red", "Pokémon Trainer", 25)

  /** The character store's setters, which store any value they are given. */
  datatype CharacterAction = SetTrainerSprite(id: string) | SetTrainerTitle(title: string) | SetCompanionPokemon(n: int)

  function ApplyCharacter(s: CharacterData, a: CharacterAction): (t: CharacterData)
    ensures a.SetTrainerSprite? ==> t == s.(trainerSprite := a.id)
    ensures a.SetTrainerTitle? ==> t == s.(trainerTitle := a.title)
    ensures a.SetCompanionPokemon? ==> t == s.(companionPokemon := a.n)
  {
    match a
    case SetTrainerSprite(id) => CharacterData(id, s.trainerTitle, s.companionPokemon)
    case SetTrainerTitle(title) => CharacterData(s.trainerSprite, title, s.companionPokemon)
    case SetCompanionPokemon(n) => CharacterData(s.trainerSprite, s.trainerTitle, n)
  }

  /** `getCharacterData`: the three stored fields, and nothing else. */
  function GetCharacterData(s: CharacterData): (d: CharacterData)
    ensures d.trainerSprite == s.trainerSprite && d.trainerTitle == s.trainerTitle
    ensures d.companionPokemon == s.companionPokemon
  {
    CharacterData(s.trainerSprite, s.trainerTitle, s.companionPokemon)
  }

  /** What the browser had stored under the character key; any field may be absent. */
  datatype Persisted = Persisted(trainerSprite: Option<string>, trainerTitle: Option<string>,
                                 companionPokemon: Option<int>)

  /** A stored character names a listed sprite and a listed companion. */
  predicate ValidCharacter(d: CharacterData) {
    d.trainerSprite in TrainerSprites && d.companionPokemon in CompanionPokemon
  }

  /** The store's `merge`: stored fields override the current ones, then an unlisted companion falls
      back to Pikachu and an unlisted sprite to Red. */
  function Merge(persisted: Persisted, current: CharacterData): (r: CharacterData)
    ensures ValidCharacter(r)
    ensures r.trainerTitle == persisted.trainerTitle.GetOr(current.trainerTitle)
    ensures var c := persisted.companionPokemon.GetOr(current.companionPokemon);
              r.companionPokemon == if c in CompanionPokemon then c else 25
    ensures var t := persisted.trainerSprite.GetOr(current.trainerSprite);
              r.trainerSprite == if t in TrainerSprites then t else "red"
  {
    var merged := CharacterData(persisted.trainerSprite.GetOr(current.trainerSprite),
                                persisted.trainerTitle.GetOr(current.trainerTitle),
                                persisted.companionPokemon.GetOr(current.companionPokemon));
    var merged := if merged.companionPokemon !in CompanionPokemon then merged.(companionPokemon := 25) else merged;
    if merged.trainerSprite !in TrainerSprites then merged.(trainerSprite := "red") else merged
  }

  /** What persisting a character writes. */
  function Stored(d: CharacterData): Persisted {
    Persisted(Some(d.trainerSprite), Some(d.trainerTitle), Some(d.companionPokemon))
  }

  /** Reloading a valid stored character gives it back, whatever the store held before. */
  lemma MergeRoundTrip(d: CharacterData, current: CharacterData)
    requires ValidCharacter(d)
    ensures Merge(Stored(d), current) == d
  {
  }

  /** Nothing stored: the defaults survive the merge. */
  lemma MergeEmpty()
    ensures Merge(Persisted(None, None, None), DefaultCharacter) == DefaultCharacter
  {
    assert DefaultCharacter.companionPokemon == CompanionPokemon[0];
    assert DefaultCharacter.trainerSprite == TrainerSprites[0];
  }

  /** The setters do not validate, but a reload repairs exactly the unlisted fields. */
  lemma ReloadRepairs(s: CharacterData, a: CharacterAction, current: CharacterData)
    requires ValidCharacter(s)
    ensures var t := ApplyCharacter(s, a);
              var r := Merge(Stored(t), current);
              r.trainerTitle == t.trainerTitle &&
              (t.companionPokemon in CompanionPokemon ==> r.companionPokemon == t.companionPokemon) &&
              (t.companionPokemon !in CompanionPokemon ==> r.companionPokemon == 25) &&
              (t.trainerSprite in TrainerSprites ==> r.trainerSprite == t.trainerSprite) &&
              (t.trainerSprite !in TrainerSprites ==> r.trainerSprite == "red")
  {
  }
}
