/**
 * The ingress decoder of `MusicPlaybackReceiver.onReceive`: the broadcast's extras become the
 * `(Track, TrackState)` pair handed to the anchor, or nothing when the intent has no extras.
 */
module Receiver {
  import opened Types

  /** A value stored in an Android `Bundle`, as far as the decoder can tell them apart. */
  datatype ExtraValue = StringValue(s: string) | BooleanValue(b: bool) | NullValue | OtherValue

  /** The extras of an intent: a key-value bundle. */
  type Extras = map<string, ExtraValue>

  /** What the receiver forwards to `handleMusicUpdate`. */
  datatype Update = Update(track: Track, state: TrackState)

  /** `Bundle.getString(key)`: the string stored under `key`; `null` when missing, null or of another type. */
  function GetString(extras: Extras, key: string): (r: Option<string>)
    ensures r.Some? <==> key in extras && extras[key].StringValue?
    ensures r.Some? ==> extras[key] == StringValue(r.value)
  {
    if key in extras && extras[key].StringValue? then Some(extras[key].s) else None
  }

  /** `Bundle.getBoolean(key)`: the boolean stored under `key`; `false` when missing or of another type. */
  function GetBoolean(extras: Extras, key: string): (r: bool)
    ensures r <==> key in extras && extras[key] == BooleanValue(true)
  {
    key in extras && extras[key].BooleanValue? && extras[key].b
  }

  /** The `when` on the two flags: playing wins over preparing, and neither means stopped. */
  function DecodeState(isPlaying: bool, isPreparing: bool): (r: TrackState)
    ensures r == PLAYING <==> isPlaying
    ensures r == PREPARING <==> !isPlaying && isPreparing
    ensures r == STOPPED <==> !isPlaying && !isPreparing
  {
    if isPlaying then PLAYING
    else if isPreparing then PREPARING
    else STOPPED
  }

  /**
   * `onReceive` up to the hand-off: no extras, no update; otherwise the title is read from
   * `"track"`, the artist from `"artist"`, the album from `"album"`, and the state from the
   * `"playing"` and `"preparing"` flags.
   */
  function Decode(extras: Option<Extras>): (r: Option<Update>)
    ensures r.None? <==> extras.None?
    ensures r.Some? ==> r.value.track == Track(GetString(extras.value, "track"),
                                               GetString(extras.value, "artist"),
                                               GetString(extras.value, "album"))
    ensures r.Some? ==> (r.value.state == PLAYING <==> GetBoolean(extras.value, "playing"))
    ensures r.Some? ==> (r.value.state == PREPARING <==>
                           !GetBoolean(extras.value, "playing") && GetBoolean(extras.value, "preparing"))
  {
    if extras.None? then None
    else
      var e := extras.value;
      var artist := GetString(e, "artist");
      var album := GetString(e, "album");
      var title := GetString(e, "track");
      var isPlaying := GetBoolean(e, "playing");
      var isPreparing := GetBoolean(e, "preparing");
      Some(Update(Track(title, artist, album), DecodeState(isPlaying, isPreparing)))
  }

  /** A field written as a string extra, or left out of the bundle when absent. */
  function PutString(extras: Extras, key: string, value: Option<string>): Extras {
    if value.Some? then extras[key := StringValue(value.value)] else extras - {key}
  }

  /** The extras a music player broadcasts for `u`: the present fields and the two flags. */
  function Encode(u: Update): (e: Extras)
    ensures GetBoolean(e, "playing") <==> u.state == PLAYING
    ensures GetBoolean(e, "preparing") <==> u.state == PREPARING
  {
    var flags := map["playing" := BooleanValue(u.state == PLAYING),
                     "preparing" := BooleanValue(u.state == PREPARING)];
    PutString(PutString(PutString(flags, "track", u.track.title), "artist", u.track.artist),
              "album", u.track.album)
  }

  /** Decoding what a player broadcasts gives back the track and the state it broadcast. */
  lemma DecodeEncode(u: Update)
    ensures Decode(Some(Encode(u))) == Some(u)
  {
    var e := Encode(u);
    assert GetString(e, "track") == u.track.title;
    assert GetString(e, "artist") == u.track.artist;
    assert GetString(e, "album") == u.track.album;
  }

  /** Only the five keys the decoder reads matter: two bundles that agree on them decode alike. */
  lemma DecodeReadsFiveKeys(e1: Extras, e2: Extras)
    requires forall k :: k in {"track", "artist", "album", "playing", "preparing"} ==>
               (k in e1 <==> k in e2) && (k in e1 ==> e1[k] == e2[k])
    ensures Decode(Some(e1)) == Decode(Some(e2))
  {
    assert "track" in {"track", "artist", "album", "playing", "preparing"};
    assert "artist" in {"track", "artist", "album", "playing", "preparing"};
    assert "album" in {"track", "artist", "album", "playing", "preparing"};
    assert "playing" in {"track", "artist", "album", "playing", "preparing"};
    assert "preparing" in {"track", "artist", "album", "playing", "preparing"};
  }
}
