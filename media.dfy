/** The media sample a local track is written with: the bytes and how long
    they play, in nanoseconds (`time.Duration`). */
module Media {
  import opened ByteStrings

  datatype Sample = Sample(data: Bytes, duration: int)
}
