/**
 * The radio anchor: decides, for each now-playing update, whether something is said and
 * what, and hands the message to the voice.
 */
module Anchor {
  import opened Types
  import opened Text
  import opened Templates
  import opened Voice

  /** `TimeUnit.MINUTES.toMillis(20)`. */
  const ANNOUNCEMENT_DELAY_MS: int := 20 * 60 * 1000

  // ---------------------------------------------------------------------------------
  // Normalised fields

  /** `track.artist.nullIfBlank()`. */
  function ArtistOf(track: Track): Option<string> {
    NullIfBlank(track.artist)
  }

  /** `track.album.nullIfBlank()`. */
  function AlbumOf(track: Track): Option<string> {
    NullIfBlank(track.album)
  }

  /** `previousTrack?.artist.nullIfBlank()`: absent when there is no previous track. */
  function PreviousArtist(previous: Option<Track>): Option<string> {
    if previous.None? then None else ArtistOf(previous.value)
  }

  /** `previousTrack?.album.nullIfBlank()`. */
  function PreviousAlbum(previous: Option<Track>): Option<string> {
    if previous.None? then None else AlbumOf(previous.value)
  }

  /**
   * `track.getCleanTitle()`: absent for a null or blank title, otherwise the title with
   * every `(...)` group deleted. The result is not trimmed and may be empty or blank; it
   * still counts as a present title.
   */
  function CleanTitle(track: Track): (r: Option<string>)
    ensures r.None? <==> IsNullOrBlank(track.title)
    ensures r.Some? ==> |r.value| <= |track.title.value|
    ensures r.Some? && '(' !in track.title.value ==> r == track.title
  {
    if IsNullOrBlank(track.title) then None
    else
      var cleaned := StripGroups(track.title.value);
      assert '(' !in track.title.value ==> cleaned == track.title.value by {
        if '(' !in track.title.value {
          NoOpenUnchanged(track.title.value);
        }
      }
      Some(cleaned)
  }

  // ---------------------------------------------------------------------------------
  // Classification

  /** The message to build, one case per template family, with the fields it interpolates. */
  datatype Announcement =
    | NoTitleBoth(artist: string, album: string)
    | NoTitleArtist(artist: string)
    | NoTitleAlbum(album: string)
    | NoTitleNeither
    | NoSource(title: string)
    | SameArtist(artist: string, title: string)
    | SameAlbum(album: string, title: string)
    | NewAlbum(album: string, title: string)
    | NewArtist(artist: string, title: string)

  /** The position of the `when` branch that yields `a` (0 is the first). */
  function Rank(a: Announcement): nat {
    match a
    case NoTitleBoth(_, _) => 0
    case NoTitleArtist(_) => 0
    case NoTitleAlbum(_) => 0
    case NoTitleNeither => 0
    case NoSource(_) => 1
    case SameArtist(_, _) => 2
    case SameAlbum(_, _) => 3
    case NewAlbum(_, _) => 4
    case NewArtist(_, _) => 5
  }

  /** The guard of branch `rank`, on its own, without the branches before it. */
  predicate Guard(rank: nat, track: Track, previous: Option<Track>) {
    match rank
    case 0 => CleanTitle(track).None?
    case 1 => ArtistOf(track).None? && AlbumOf(track).None?
    case 2 => ArtistOf(track).Some? && ArtistOf(track) == PreviousArtist(previous)
    case 3 => AlbumOf(track).Some? && AlbumOf(track) == PreviousAlbum(previous)
    case 4 => ArtistOf(track).None?
    case _ => true
  }

  /** The fields carried by `a` are the track's normalised fields, and absent ones are absent. */
  predicate Carries(a: Announcement, track: Track) {
    match a
    case NoTitleBoth(artist, album) => ArtistOf(track) == Some(artist) && AlbumOf(track) == Some(album)
    case NoTitleArtist(artist) => ArtistOf(track) == Some(artist) && AlbumOf(track).None?
    case NoTitleAlbum(album) => ArtistOf(track).None? && AlbumOf(track) == Some(album)
    case NoTitleNeither => ArtistOf(track).None? && AlbumOf(track).None?
    case NoSource(title) => CleanTitle(track) == Some(title)
    case SameArtist(artist, title) => ArtistOf(track) == Some(artist) && CleanTitle(track) == Some(title)
    case SameAlbum(album, title) => AlbumOf(track) == Some(album) && CleanTitle(track) == Some(title)
    case NewAlbum(album, title) => AlbumOf(track) == Some(album) && CleanTitle(track) == Some(title)
    case NewArtist(artist, title) => ArtistOf(track) == Some(artist) && CleanTitle(track) == Some(title)
  }

  /**
   * The `when` of `buildMsgPlaying`. The result's branch is the first whose guard holds,
   * and its fields are the normalised ones; in particular the new-album branch always has
   * an album, so `trackAlbum!!` cannot fail. With no previous track the same-artist and
   * same-album branches are never taken.
   */
  function Classify(track: Track, previous: Option<Track>): (r: Announcement)
    ensures Guard(Rank(r), track, previous)
    ensures forall k: nat :: k < Rank(r) ==> !Guard(k, track, previous)
    ensures Carries(r, track)
    ensures previous.None? ==> !r.SameArtist? && !r.SameAlbum?
  {
    var trackArtist := ArtistOf(track);
    var trackAlbum := AlbumOf(track);
    var trackTitle := CleanTitle(track);
    var sameArtist := trackArtist == PreviousArtist(previous);
    var sameAlbum := trackAlbum == PreviousAlbum(previous);
    if trackTitle.None? then
      if trackArtist.Some? && trackAlbum.Some? then NoTitleBoth(trackArtist.value, trackAlbum.value)
      else if trackArtist.Some? then NoTitleArtist(trackArtist.value)
      else if trackAlbum.Some? then NoTitleAlbum(trackAlbum.value)
      else NoTitleNeither
    else if trackArtist.None? && trackAlbum.None? then NoSource(trackTitle.value)
    else if trackArtist.Some? && sameArtist then SameArtist(trackArtist.value, trackTitle.value)
    else if trackAlbum.Some? && sameAlbum then SameAlbum(trackAlbum.value, trackTitle.value)
    else if trackArtist.None? then NewAlbum(trackAlbum.value, trackTitle.value)
    else NewArtist(trackArtist.value, trackTitle.value)
  }

  // ---------------------------------------------------------------------------------
  // Template families (`buildMsgPlayingNoTitle`, `...NoSource`, `...SameArtist`,
  // `...SameAlbum`, `...NewAlbum`, `...NewArtist`)

  /**
   * The literal alternatives of the family that says `a`, in source order; each is marked
   * with the line of RadioAnchor.kt that holds it. A family has two to five alternatives.
   */
  function Family(a: Announcement): (r: seq<Template>)
    ensures 2 <= |r| <= 5
  {
    match a
    case NoTitleBoth(_, _) => [
      [Lit(0), Slot(Album), Lit(1), Slot(Artist), Lit(2)],  // line 95
      [Lit(3), Slot(Album), Lit(4), Slot(Artist), Lit(5)],  // line 96
      [Lit(6), Slot(Artist), Lit(7), Slot(Album), Lit(8)]]  // line 97
    case NoTitleArtist(_) => [
      [Lit(9), Slot(Artist), Lit(10)],  // line 101
      [Lit(11), Slot(Artist), Lit(12)]]  // line 102
    case NoTitleAlbum(_) => [
      [Lit(13), Slot(Album), Lit(14)],  // line 106
      [Lit(15), Slot(Album), Lit(16)]]  // line 107
    case NoTitleNeither => [
      [Lit(17)],  // line 111
      [Lit(18)]]  // line 112
    case NoSource(_) => [
      [Lit(19), Slot(Title)],  // line 86
      [Lit(20), Slot(Title)],  // line 87
      [Lit(21), Slot(Title)]]  // line 88
    case SameArtist(_, _) => [
      [Lit(22), Slot(Artist), Lit(23), Slot(Title), Lit(24)],  // line 119
      [Lit(25), Slot(Artist), Lit(26), Slot(Title), Lit(27)],  // line 120
      [Lit(28), Slot(Artist), Lit(29), Slot(Title), Lit(30)]]  // line 121
    case SameAlbum(_, _) => [
      [Lit(31), Slot(Album), Lit(32), Slot(Title), Lit(33)],  // line 127
      [Lit(34), Slot(Title), Lit(35), Slot(Album), Lit(36)]]  // line 128
    case NewAlbum(_, _) => [
      [Lit(37), Slot(Title), Lit(38), Slot(Album)],  // line 134
      [Lit(39), Slot(Album), Lit(40), Slot(Title)],  // line 135
      [Lit(41), Slot(Title), Lit(42), Slot(Album)],  // line 136
      [Lit(43), Slot(Title), Lit(44), Slot(Album)]]  // line 137
    case NewArtist(_, _) => [
      [Lit(45), Slot(Artist), Lit(46), Slot(Title)],  // line 142
      [Lit(47), Slot(Title), Lit(48), Slot(Artist)],  // line 143
      [Lit(49), Slot(Artist), Lit(50), Slot(Title)],  // line 144
      [Lit(51), Slot(Title), Lit(52), Slot(Artist)],  // line 145
      [Lit(53), Slot(Title), Lit(54), Slot(Artist)]]  // line 146
  }

  /** The fields `a` carries, as interpolation pieces. */
  function Carried(a: Announcement): set<Field> {
    match a
    case NoTitleBoth(_, _) => {Artist, Album}
    case NoTitleArtist(_) => {Artist}
    case NoTitleAlbum(_) => {Album}
    case NoTitleNeither => {}
    case NoSource(_) => {Title}
    case SameArtist(_, _) => {Artist, Title}
    case SameAlbum(_, _) => {Album, Title}
    case NewAlbum(_, _) => {Album, Title}
    case NewArtist(_, _) => {Artist, Title}
  }

  /** The values substituted into the templates; a field `a` does not carry is never interpolated. */
  function FieldsOf(a: Announcement): Fields {
    match a
    case NoTitleBoth(artist, album) => Fields("", artist, album)
    case NoTitleArtist(artist) => Fields("", artist, "")
    case NoTitleAlbum(album) => Fields("", "", album)
    case NoTitleNeither => Fields("", "", "")
    case NoSource(title) => Fields(title, "", "")
    case SameArtist(artist, title) => Fields(title, artist, "")
    case SameAlbum(album, title) => Fields(title, "", album)
    case NewAlbum(album, title) => Fields(title, "", album)
    case NewArtist(artist, title) => Fields(title, artist, "")
  }

  /**
   * The families have 3, 2, 2, 2 (no title: both, artist only, album only, neither), 3 (no
   * source), 3 (same artist), 2 (same album), 4 (new album) and 5 (new artist) alternatives,
   * and every alternative interpolates exactly the fields its family carries.
   */
  lemma FamilyShape(a: Announcement)
    ensures |Family(a)| == match a
      case NoTitleBoth(_, _) => 3
      case NoTitleArtist(_) => 2
      case NoTitleAlbum(_) => 2
      case NoTitleNeither => 2
      case NoSource(_) => 3
      case SameArtist(_, _) => 3
      case SameAlbum(_, _) => 2
      case NewAlbum(_, _) => 4
      case NewArtist(_, _) => 5
    ensures AllUse(Family(a), Carried(a))
  {
    match a
    case NoTitleBoth(_, _) => NoTitleBothShape(a);
    case NoTitleArtist(_) => NoTitleArtistShape(a);
    case NoTitleAlbum(_) => NoTitleAlbumShape(a);
    case NoTitleNeither => NoTitleNeitherShape(a);
    case NoSource(_) => NoSourceShape(a);
    case SameArtist(_, _) => SameArtistShape(a);
    case SameAlbum(_, _) => SameAlbumShape(a);
    case NewAlbum(_, _) => NewAlbumShape(a);
    case NewArtist(_, _) => NewArtistShape(a);
  }

  // The nine lemmas below only split the proof of FamilyShape, one family each, so that each
  // proof sees one family's templates; they state nothing FamilyShape does not.

  lemma NoTitleBothShape(a: Announcement)
    requires a.NoTitleBoth?
    ensures |Family(a)| == 3 && AllUse(Family(a), {Artist, Album})
  {
  }

  lemma NoTitleArtistShape(a: Announcement)
    requires a.NoTitleArtist?
    ensures |Family(a)| == 2 && AllUse(Family(a), {Artist})
  {
  }

  lemma NoTitleAlbumShape(a: Announcement)
    requires a.NoTitleAlbum?
    ensures |Family(a)| == 2 && AllUse(Family(a), {Album})
  {
  }

  lemma NoTitleNeitherShape(a: Announcement)
    requires a.NoTitleNeither?
    ensures |Family(a)| == 2 && AllUse(Family(a), {})
  {
  }

  lemma NoSourceShape(a: Announcement)
    requires a.NoSource?
    ensures |Family(a)| == 3 && AllUse(Family(a), {Title})
  {
  }

  lemma SameArtistShape(a: Announcement)
    requires a.SameArtist?
    ensures |Family(a)| == 3 && AllUse(Family(a), {Artist, Title})
  {
  }

  lemma SameAlbumShape(a: Announcement)
    requires a.SameAlbum?
    ensures |Family(a)| == 2 && AllUse(Family(a), {Album, Title})
  {
  }

  lemma NewAlbumShape(a: Announcement)
    requires a.NewAlbum?
    ensures |Family(a)| == 4 && AllUse(Family(a), {Album, Title})
  {
  }

  lemma NewArtistShape(a: Announcement)
    requires a.NewArtist?
    ensures |Family(a)| == 5 && AllUse(Family(a), {Artist, Title})
  {
  }

  /**
   * One alternative of `a`'s family, chosen by `pick`, with `a`'s fields substituted; every
   * alternative is said for some pick.
   */
  function Message(a: Announcement, pick: nat): (r: string)
    ensures exists i :: 0 <= i < |Family(a)| && r == Render(Family(a)[i], FieldsOf(a))
    ensures pick < |Family(a)| ==> r == Render(Family(a)[pick], FieldsOf(a))
  {
    Render(AnElementFrom(Family(a), pick), FieldsOf(a))
  }

  /** A message names every field its family carries: the title, artist or album appears verbatim. */
  lemma MessageMentionsFields(a: Announcement, pick: nat, x: Field)
    requires x in Carried(a)
    ensures Contains(Message(a, pick), Value(x, FieldsOf(a)))
  {
    var t := AnElementFrom(Family(a), pick);
    var i :| 0 <= i < |Family(a)| && Family(a)[i] == t;
    FamilyShape(a);
    assert FieldsUsed(t) == Carried(a);
    RenderMentions(t, FieldsOf(a), x);
  }

  // ---------------------------------------------------------------------------------
  // Decision

  /** `buildMsgPlaying(track, previousTrack)`. */
  function BuildMsgPlaying(track: Track, previous: Option<Track>, pick: nat): (r: string)
    ensures var a := Classify(track, previous);
      exists i :: 0 <= i < |Family(a)| && r == Render(Family(a)[i], FieldsOf(a))
  {
    Message(Classify(track, previous), pick)
  }

  /** `buildMsg(track, previousTrack, state)`: a message for `PLAYING` only. */
  function BuildMsg(track: Track, previous: Option<Track>, state: TrackState, pick: nat): (r: Option<string>)
    ensures r.Some? <==> state == PLAYING
  {
    match state
    case PLAYING => Some(BuildMsgPlaying(track, previous, pick))
    case _ => None
  }

  /**
   * What `handleMusicUpdate` hands to the voice, given the last announced track: nothing for
   * a track equal to it, nothing unless playing, otherwise the message built against it.
   */
  function Announce(last: Option<Track>, track: Track, state: TrackState, pick: nat): (r: Option<string>)
    ensures r.Some? <==> last != Some(track) && state == PLAYING
    ensures r.Some? ==> r.value == BuildMsgPlaying(track, last, pick)
  {
    if last == Some(track) then None else BuildMsg(track, last, state, pick)
  }

  /**
   * What the anchor hands to the voice names every field of the branch taken: the cleaned
   * title, the artist or the album, whichever that branch carries.
   */
  lemma AnnouncementMentionsFields(last: Option<Track>, track: Track, state: TrackState, pick: nat, x: Field)
    requires Announce(last, track, state, pick).Some?
    requires x in Carried(Classify(track, last))
    ensures Contains(Announce(last, track, state, pick).value, Value(x, FieldsOf(Classify(track, last))))
  {
    MessageMentionsFields(Classify(track, last), pick, x);
  }

  /**
   * An update for the track last announced says nothing, whatever its state. Since an
   * announced track is recorded, the same playing track twice in a row is announced once.
   */
  lemma RepeatedUpdateIsSilent(track: Track, state: TrackState, pick: nat)
    ensures Announce(Some(track), track, state, pick).None?
  {
  }

  /**
   * A preparing or stopped update says nothing and leaves the last announced track as it
   * was, so a playing update for the same new track is still announced afterwards.
   */
  lemma NotPlayingKeepsTrackEligible(last: Option<Track>, track: Track, state: TrackState, pick1: nat, pick2: nat)
    requires state != PLAYING && last != Some(track)
    ensures Announce(last, track, state, pick1).None?
    ensures Announce(last, track, PLAYING, pick2).Some?
  {
  }

  // ---------------------------------------------------------------------------------
  // The anchor

  class RadioAnchor {
    const voice: AnchorVoice
    var lastTrackAnnounced: Option<Track>
    /** Set once at construction and never written again. */
    var lastAnnouncementTimestamp: int

    constructor(sessionId: string)
      ensures fresh(voice) && voice.Valid() && voice.sessionId == sessionId
      ensures voice.messageCount == 0 && !voice.isTtsready && voice.trace == []
      ensures lastTrackAnnounced == None && lastAnnouncementTimestamp == 0
    {
      voice := new AnchorVoice(sessionId);
      lastTrackAnnounced := None;
      lastAnnouncementTimestamp := 0;
    }

    /** `sendGreetings()`: an empty hook. */
    method SendGreetings() {
    }

    /**
     * `handleMusicUpdate(track, state)`. The clock reading `now` and the random draw `pick`
     * are inputs. The update is dropped when `track` equals the last announced track; a
     * message, when one is built, is queued on the voice and only then is the track
     * recorded. The timestamp is never written, so `now` has no effect on the outcome.
     */
    method HandleMusicUpdate(track: Track, state: TrackState, now: int, pick: nat)
      requires voice.Valid()
      modifies this, voice
      ensures voice.Valid()
      ensures lastAnnouncementTimestamp == old(lastAnnouncementTimestamp)
      ensures match Announce(old(lastTrackAnnounced), track, state, pick)
        case None => lastTrackAnnounced == old(lastTrackAnnounced) && unchanged(voice)
        case Some(message) => lastTrackAnnounced == Some(track) && voice.Enqueued(message)
    {
      var previousTrack := lastTrackAnnounced;
      if previousTrack == Some(track) {
        return;
      }
      if lastAnnouncementTimestamp < now - ANNOUNCEMENT_DELAY_MS {
        SendGreetings();
      }
      var message := BuildMsg(track, previousTrack, state, pick);
      if message.Some? {
        voice.QueueMessage(message.value);
        lastTrackAnnounced := Some(track);
      }
    }
  }

  /**
   * Two `PLAYING` updates for the same track on a fresh anchor: the first queues exactly one
   * message, the second queues nothing and changes nothing.
   */
  method PlayingTwice(sessionId: string, track: Track, now1: int, now2: int, pick1: nat, pick2: nat)
    returns (anchor: RadioAnchor, queuedAfterFirst: nat, queuedAfterSecond: nat)
    ensures fresh(anchor) && anchor.lastTrackAnnounced == Some(track)
    ensures queuedAfterFirst == 1 && queuedAfterSecond == 1
  {
    anchor := new RadioAnchor(sessionId);
    anchor.HandleMusicUpdate(track, PLAYING, now1, pick1);
    queuedAfterFirst := anchor.voice.messageCount;
    anchor.HandleMusicUpdate(track, PLAYING, now2, pick2);
    queuedAfterSecond := anchor.voice.messageCount;
  }
}
