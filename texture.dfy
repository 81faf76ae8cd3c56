/** The pixel format a texture is created with, chosen from the number of
    channels the image loader reports. The loading itself and the graphics
    calls that follow are not modelled. */
module Textures {

  datatype Option<T> = None | Some(value: T)

  /** `GL_R`, `GL_RG`, `GL_RGB`, `GL_RGBA`. */
  datatype GLFormat = R | RG | RGB | RGBA

  /** The number of channels a format holds. */
  function Channels(f: GLFormat): nat
  {
    match f
    case R => 1
    case RG => 2
    case RGB => 3
    case RGBA => 4
  }

  /** What `Texture(path)` leaves behind: the format field (unassigned when
      there was no image), the success flag, and whether the image buffer
      was handed back to the loader before the constructor returned. */
  datatype Loaded = Loaded(format: Option<GLFormat>, successful: bool, imageFreed: bool)

  /** The channel switch of `Texture(path)`. An unsupported count returns
      early: the flag is false and the image buffer is not released. */
  function ChooseFormat(hasImageData: bool, comp: int): (r: Loaded)
    ensures r.successful <==> hasImageData && 1 <= comp <= 4
    ensures r.format.Some? <==> hasImageData
    ensures r.successful ==> Channels(r.format.value) == comp
    ensures hasImageData && !r.successful ==> r.format == Some(R)
    ensures r.imageFreed <==> r.successful || !hasImageData
  {
    if hasImageData then
      match comp
      case 1 => Loaded(Some(R), true, true)
      case 2 => Loaded(Some(RG), true, true)
      case 3 => Loaded(Some(RGB), true, true)
      case 4 => Loaded(Some(RGBA), true, true)
      case _ => Loaded(Some(R), false, false)
    else
      Loaded(None, false, true)
  }

  /** Every format is chosen for exactly its own channel count. */
  lemma FormatForOwnChannelCount(f: GLFormat)
    ensures ChooseFormat(true, Channels(f)) == Loaded(Some(f), true, true)
  {
  }
}
