/** `VideoQuality`, the quality tier both front ends let the user choose. */
module Quality {
  datatype VideoQuality = Standard | Hd

  /** The string the tier travels as. */
  function Name(q: VideoQuality): (s: string)
    ensures s != ""
  {
    match q
    case Standard => "standard"
    case Hd => "hd"
  }
}
