/**
 * The 3-D map's light preset, chosen from the local hour.
 */
module MapPreset {
  datatype Preset = Dawn | Day | Dusk | Night

  /** The preset names the map style accepts. */
  function PresetName(p: Preset): string
  {
    match p
    case Dawn => "dawn"
    case Day => "day"
    case Dusk => "dusk"
    case Night => "night"
  }

  /** `getCurrentLightPreset`: dawn from 5, day from 8, dusk from 18, night from 21 until 5. */
  function LightPreset(hours: int): Preset
  {
    if 5 <= hours < 8 then Dawn
    else if 8 <= hours < 18 then Day
    else if 18 <= hours < 21 then Dusk
    else Night
  }

  /** Each hour of the day falls in exactly one band, and the preset is that band's. */
  lemma PresetBands(h: int)
    requires 0 <= h < 24
    ensures LightPreset(h) == Dawn <==> 5 <= h <= 7
    ensures LightPreset(h) == Day <==> 8 <= h <= 17
    ensures LightPreset(h) == Dusk <==> 18 <= h <= 20
    ensures LightPreset(h) == Night <==> h <= 4 || 21 <= h
  {
  }

  /** The order of the day. */
  function Next(p: Preset): Preset
  {
    match p
    case Dawn => Day
    case Day => Dusk
    case Dusk => Night
    case Night => Dawn
  }

  /**
   * The preset of an hour differs from the previous hour's only at 5, 8,
   * 18 and 21, and there it moves to the next preset of the day (midnight
   * stays in the night).
   */
  lemma PresetChanges(h: int)
    requires 0 <= h < 24
    ensures LightPreset(h) != LightPreset((h + 23) % 24) <==> h == 5 || h == 8 || h == 18 || h == 21
    ensures LightPreset(h) != LightPreset((h + 23) % 24) ==> LightPreset(h) == Next(LightPreset((h + 23) % 24))
  {
  }

  /** Different presets have different names. */
  lemma PresetNameInjective(p: Preset, q: Preset)
    requires PresetName(p) == PresetName(q)
    ensures p == q
  {
  }
}
