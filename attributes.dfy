/** The attribute names the property interface takes (`AudioAttributes` in `device/mod.rs`). */
module Attributes {
  datatype AudioAttribute =
    | Unknown | SampleRate | Volume | Pan | FXPitch | FXTempo | AudioFX | AudioSpatialization

  /** The five attributes whose names `From` recognises. */
  predicate Parsable(a: AudioAttribute)
  {
    a in {SampleRate, Volume, Pan, FXPitch, FXTempo}
  }

  /** `AudioAttributes::from`. */
  function From(name: string): (a: AudioAttribute)
    ensures a == Unknown <==> name !in {"SampleRate", "Volume", "Pan", "FXPitch", "FXTempo"}
    ensures a != Unknown ==> Parsable(a) && ToString(a) == name
  {
    match name
    case "SampleRate" => SampleRate
    case "Volume" => Volume
    case "Pan" => Pan
    case "FXPitch" => FXPitch
    case "FXTempo" => FXTempo
    case _ => Unknown
  }

  /** `AudioAttributes::to_string`: every attribute has its own name. */
  function ToString(a: AudioAttribute): (name: string)
    ensures |name| > 0
  {
    match a
    case SampleRate => "SampleRate"
    case Volume => "Volume"
    case Pan => "Pan"
    case FXPitch => "FXPitch"
    case FXTempo => "FXTempo"
    case AudioFX => "AudioFX"
    case AudioSpatialization => "AudioSpatialization"
    case Unknown => "Unknown"
  }

  /** Names round-trip exactly for the five parsable attributes, and AudioFX and AudioSpatialization read back as Unknown. */
  lemma FromToString(a: AudioAttribute)
    ensures From(ToString(a)) == if Parsable(a) then a else Unknown
  {
  }

  /** `ToString` is injective: distinct attributes have distinct names. */
  lemma ToStringInjective(a: AudioAttribute, b: AudioAttribute)
    requires ToString(a) == ToString(b)
    ensures a == b
  {
  }
}
