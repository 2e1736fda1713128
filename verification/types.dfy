/** Values shared by the announcement engine, the voice and the ingress decoder. */
module Types {

  /** A Kotlin nullable value: `None` stands for `null`. */
  datatype Option<+T> = None | Some(value: T)

  /**
   * Now-playing metadata, built as `Track(title, artist, album)`.
   * A Kotlin data class: `==` compares the three fields, so datatype equality is the same.
   */
  datatype Track = Track(title: Option<string>, artist: Option<string>, album: Option<string>)

  /** Playback state reported together with a track. */
  datatype TrackState = PLAYING | PREPARING | STOPPED
}
