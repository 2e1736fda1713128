# radiovoice — a verified model of the radio anchor

radiovoice is an Android app that listens to a music player's now-playing broadcasts and
has a text-to-speech "radio anchor" say something about each new track. This project models
three parts of the app in Dafny:

- the **ingress decoder**: how a broadcast's extras become a `(Track, TrackState)` pair
  (`receiver.dfy`);
- the **announcement engine** (`RadioAnchor`) with these parts:
  - the duplicate check against the last announced track;
  - the `PLAYING`-only gate;
  - the six-way classification of a track against the previous one;
  - the six template families and the random pick among a family's alternatives;
  - the title cleanup `getCleanTitle` and `nullIfBlank`;

  These live in `types.dfy`, `text.dfy`, `templates.dfy` and `anchor.dfy`.
- the **voice** (`AnchorVoice`), which does four things:
  - it numbers every message `"$sessionId/$messageCount"`;
  - it speaks a message only once the engine reported a successful initialisation;
  - it requests transient audio focus when an utterance starts and nothing is held;
  - it gives the focus back only when the utterance that finishes is the last one spoken.

  This part is in `voice.dfy`.

The anchor and the voice are classes whose methods update their fields, as in the app. The
classification, the templates and the decoder are functions. The voice keeps a ghost trace
of the calls it makes on the speech engine and on the audio manager. Its invariant `Valid()`
ties its fields to that trace:
- the counter counts the numbered messages;
- focus is requested only while nothing is held;
- an abandon gives back exactly the request that is held;
- the utterances spoken are numbered messages, in increasing order;
- `lastUtteranceId` is the id of the last one spoken.

`anchor_examples.dfy` and `text_examples.dfy` prove worked cases.

Three behaviours of the code worth knowing; the model follows the code:
- `getCleanTitle` does not trim. `"Song (Live) (Remastered)"` becomes `"Song  "`, with two
  trailing spaces (`TextExamples.TwoGroupsStripped`).
- A title that is only a group cleans to `""`. That empty title still counts as present, so
  it selects a titled family, not the no-title one (`AnchorExamples.LiveOnlyTitleIsPresent`).
- `lastAnnouncementTimestamp` is never written after construction. So `sendGreetings` (an
  empty hook) is called on every non-duplicate update whenever the clock reads more than
  20 minutes past the epoch, and the clock has no effect on what is said.

## Model

| member | source | states |
|---|---|---|
| Text.NullIfBlank | app/src/main/java/fr/xgouchet/radiovoice/RadioAnchor.kt:155-157 | absent exactly for a null or blank text; otherwise the same text, which has a non-whitespace character |
| Text.IsWhitespace | app/src/main/java/fr/xgouchet/radiovoice/RadioAnchor.kt:151 | defines Kotlin's `Char.isWhitespace` on the JVM as the list of its code points |
| Text.IsBlank | app/src/main/java/fr/xgouchet/radiovoice/RadioAnchor.kt:151 | defines `isBlank`: empty or whitespace only |
| Text.IsNullOrBlank | app/src/main/java/fr/xgouchet/radiovoice/RadioAnchor.kt:151 | defines `isNullOrBlank`: null, or blank |
| Text.StripGroups | app/src/main/java/fr/xgouchet/radiovoice/RadioAnchor.kt:152 | the regex replacement only deletes: the result is never longer than the input |
| Text.NoOpenUnchanged | app/src/main/java/fr/xgouchet/radiovoice/RadioAnchor.kt:152 | a title without `(` is returned unchanged |
| Text.NoCloseStaysAbsent | app/src/main/java/fr/xgouchet/radiovoice/RadioAnchor.kt:152 | the cleanup never introduces a `)` |
| Text.GroupFreeUnchanged | app/src/main/java/fr/xgouchet/radiovoice/RadioAnchor.kt:152 | a text with no match of `\([^)]+\)` is returned unchanged |
| Text.StripGroupsGroupFree | app/src/main/java/fr/xgouchet/radiovoice/RadioAnchor.kt:152 | after the replacement no match of `\([^)]+\)` is left anywhere |
| Text.StripGroupsIdempotent | app/src/main/java/fr/xgouchet/radiovoice/RadioAnchor.kt:152 | cleaning a cleaned title changes nothing |
| Text.PlainPrefix | app/src/main/java/fr/xgouchet/radiovoice/RadioAnchor.kt:152 | text without `(` is kept verbatim in front of the cleaned rest |
| Text.GroupDropped | app/src/main/java/fr/xgouchet/radiovoice/RadioAnchor.kt:152 | a group `(c)`, with `c` non-empty and free of `)`, is deleted and the scan resumes after it |
| TextExamples.LiveOnlyBecomesEmpty | app/src/main/java/fr/xgouchet/radiovoice/RadioAnchor.kt:152 | `"(Live)"` cleans to the empty string |
| TextExamples.EmptyGroupKept | app/src/main/java/fr/xgouchet/radiovoice/RadioAnchor.kt:152 | `()` is not a match (`[^)]+` needs one character) and stays |
| TextExamples.TwoGroupsDropped | app/src/main/java/fr/xgouchet/radiovoice/RadioAnchor.kt:152 | two groups are deleted and the text around them is kept, spaces included |
| TextExamples.TwoGroupsStripped | app/src/main/java/fr/xgouchet/radiovoice/RadioAnchor.kt:152 | `"Song (Live) (Remastered)"` cleans to `"Song  "`, untrimmed |
| Anchor.CleanTitle | app/src/main/java/fr/xgouchet/radiovoice/RadioAnchor.kt:150-153 | absent exactly when the title is null or blank; otherwise no longer than the title, and equal to it when it has no `(` |
| Anchor.Classify | app/src/main/java/fr/xgouchet/radiovoice/RadioAnchor.kt:68-81 | the branch chosen is the first of the six whose guard holds (its guard holds and no earlier guard does); the fields it carries are the normalised title, artist and album; the new-album branch always has an album (`trackAlbum!!` is safe); with no previous track the same-artist and same-album branches are never taken |
| Anchor.ArtistOf | app/src/main/java/fr/xgouchet/radiovoice/RadioAnchor.kt:68 | defines `track.artist.nullIfBlank()` |
| Anchor.AlbumOf | app/src/main/java/fr/xgouchet/radiovoice/RadioAnchor.kt:69 | defines `track.album.nullIfBlank()` |
| Anchor.PreviousArtist | app/src/main/java/fr/xgouchet/radiovoice/RadioAnchor.kt:71 | defines `previousTrack?.artist.nullIfBlank()`: absent without a previous track |
| Anchor.PreviousAlbum | app/src/main/java/fr/xgouchet/radiovoice/RadioAnchor.kt:72 | defines `previousTrack?.album.nullIfBlank()`: absent without a previous track |
| Anchor.FamilyShape | app/src/main/java/fr/xgouchet/radiovoice/RadioAnchor.kt:84-148 | each family has its size (3, 2, 2, 2 no-title alternatives for both fields, artist only, album only and neither; 3 no-source, 3 same-artist, 2 same-album, 4 new-album, 5 new-artist) and every alternative interpolates exactly the fields of its branch |
| Templates.Phrase | app/src/main/java/fr/xgouchet/radiovoice/RadioAnchor.kt:84-147 | the literal text of every template, numbered in source order; each of the 55 numbers has a non-empty text |
| Anchor.Family | app/src/main/java/fr/xgouchet/radiovoice/RadioAnchor.kt:84-147 | each family's alternatives, literally and in source order, as phrases and interpolated fields; a family has two to five alternatives |
| Templates.Render | app/src/main/java/fr/xgouchet/radiovoice/RadioAnchor.kt:86-88 | defines Kotlin string interpolation: the pieces' texts concatenated in order |
| Templates.AnElementFrom | app/src/main/java/fr/xgouchet/radiovoice/RadioAnchor.kt:85-89 | `forge.anElementFrom`: the result is one of the alternatives, and every alternative is the result for some draw |
| Templates.RenderMentions | app/src/main/java/fr/xgouchet/radiovoice/RadioAnchor.kt:86-88 | a string template contains, verbatim, every field it interpolates |
| Anchor.Message | app/src/main/java/fr/xgouchet/radiovoice/RadioAnchor.kt:84-148 | the message is one alternative of the branch's family with the branch's fields substituted, and each alternative is said for some draw |
| Anchor.MessageMentionsFields | app/src/main/java/fr/xgouchet/radiovoice/RadioAnchor.kt:84-148 | every message names, verbatim, each field its branch carries (title, artist or album) |
| Anchor.BuildMsgPlaying | app/src/main/java/fr/xgouchet/radiovoice/RadioAnchor.kt:64-82 | the message is an alternative of the family of the classified branch, rendered with that branch's fields |
| Anchor.BuildMsg | app/src/main/java/fr/xgouchet/radiovoice/RadioAnchor.kt:53-62 | a message exists exactly when the state is `PLAYING` |
| Anchor.Announce | app/src/main/java/fr/xgouchet/radiovoice/RadioAnchor.kt:26-46 | something is queued exactly when the track differs from the last announced one and the state is `PLAYING`; it is the message built against the last announced track |
| Anchor.AnnouncementMentionsFields | app/src/main/java/fr/xgouchet/radiovoice/RadioAnchor.kt:40-44 | what is queued names every field of the branch taken |
| Anchor.RepeatedUpdateIsSilent | app/src/main/java/fr/xgouchet/radiovoice/RadioAnchor.kt:28-30 | an update for the last announced track says nothing, whatever its state |
| Anchor.NotPlayingKeepsTrackEligible | app/src/main/java/fr/xgouchet/radiovoice/RadioAnchor.kt:40-46 | a preparing or stopped update says nothing and does not record the track, so the same track, playing, is still announced |
| Anchor.RadioAnchor.constructor | app/src/main/java/fr/xgouchet/radiovoice/RadioAnchor.kt:10-19 | a fresh voice, no last track, timestamp 0 |
| Anchor.RadioAnchor.HandleMusicUpdate | app/src/main/java/fr/xgouchet/radiovoice/RadioAnchor.kt:21-47 | when `Announce` yields nothing, no state changes; otherwise the message is queued on the voice (its effect as `QueueMessage` states) and the track is recorded; the timestamp is never written; the voice invariant is kept |
| Anchor.PlayingTwice | app/src/main/java/fr/xgouchet/radiovoice/RadioAnchor.kt:21-47 | two playing updates for the same track on a fresh anchor queue exactly one message |
| Anchor.RadioAnchor.SendGreetings | app/src/main/java/fr/xgouchet/radiovoice/RadioAnchor.kt:49-51 | the empty greeting hook: it changes nothing |
| AnchorExamples.SameArtistClassified | app/src/main/java/fr/xgouchet/radiovoice/RadioAnchor.kt:74-77 | a track by the previous track's artist, with a visible title without groups, takes the same-artist branch |
| AnchorExamples.SameArtistAnnounced | app/src/main/java/fr/xgouchet/radiovoice/RadioAnchor.kt:40-44 | that track, playing and distinct from the previous one, is announced with a same-artist message |
| AnchorExamples.SameArtistMentions | app/src/main/java/fr/xgouchet/radiovoice/RadioAnchor.kt:117-123 | a same-artist message names the artist and the title |
| AnchorExamples.NoTitleClassified | app/src/main/java/fr/xgouchet/radiovoice/RadioAnchor.kt:75 | a track without a title but with an artist and an album takes the no-title branch for both |
| AnchorExamples.NoTitleAnnounced | app/src/main/java/fr/xgouchet/radiovoice/RadioAnchor.kt:40-44 | that track, playing, with no previous track, is announced with a no-title message |
| AnchorExamples.NoTitleMentions | app/src/main/java/fr/xgouchet/radiovoice/RadioAnchor.kt:93-98 | such a message names the artist and the album |
| AnchorExamples.LiveOnlyTitleIsPresent | app/src/main/java/fr/xgouchet/radiovoice/RadioAnchor.kt:150-153 | a title `"(Live)"` cleans to `""`, which is a present title |
| Voice.LeaseBalance | app/src/main/java/fr/xgouchet/radiovoice/AnchorVoice.kt:53-88 | under the focus discipline, leases obtained equal abandons plus one if a lease is still held |
| Voice.NumberedAppend | app/src/main/java/fr/xgouchet/radiovoice/AnchorVoice.kt:34-37 | numbering the next message as count + 1 keeps the numbering |
| Voice.SpokenFromAppend | app/src/main/java/fr/xgouchet/radiovoice/AnchorVoice.kt:34-47 | the new id is above every id spoken so far, so speaking it keeps the spoken ids increasing |
| Voice.NumberKeepsConsistent | app/src/main/java/fr/xgouchet/radiovoice/AnchorVoice.kt:32-39 | numbering a message without speaking it keeps the voice invariant |
| Voice.SpeakKeepsConsistent | app/src/main/java/fr/xgouchet/radiovoice/AnchorVoice.kt:39-48 | numbering and speaking a message, then remembering its id, keeps the voice invariant |
| Voice.RequestKeepsConsistent | app/src/main/java/fr/xgouchet/radiovoice/AnchorVoice.kt:63-77 | a focus request made while nothing is held keeps the invariant whatever the outcome |
| Voice.AbandonKeepsConsistent | app/src/main/java/fr/xgouchet/radiovoice/AnchorVoice.kt:83-87 | giving back the held request keeps the invariant |
| Voice.AnchorVoice.constructor | app/src/main/java/fr/xgouchet/radiovoice/AnchorVoice.kt:14-30 | counter 0, not ready, no last id, no focus request, empty trace |
| Voice.AnchorVoice.QueueMessage | app/src/main/java/fr/xgouchet/radiovoice/AnchorVoice.kt:32-49 | the counter moves on by one and names the utterance `(sessionId, count)`; when ready, the message is spoken under that id and the id is remembered; otherwise only the counter moves |
| Voice.AnchorVoice.OnStart | app/src/main/java/fr/xgouchet/radiovoice/AnchorVoice.kt:53-78 | nothing happens when a request is held or there is no audio manager; otherwise focus is requested for this utterance and held exactly when granted or delayed |
| Voice.AnchorVoice.OnDone | app/src/main/java/fr/xgouchet/radiovoice/AnchorVoice.kt:80-88 | the held request is given back exactly when the finished utterance is the last one spoken and a request is held; otherwise nothing changes |
| Voice.AnchorVoice.OnErrorWithCode | app/src/main/java/fr/xgouchet/radiovoice/AnchorVoice.kt:90-93 | defers to the one-argument overload and changes nothing |
| Voice.AnchorVoice.OnError | app/src/main/java/fr/xgouchet/radiovoice/AnchorVoice.kt:95-97 | changes nothing |
| Voice.AnchorVoice.OnInit | app/src/main/java/fr/xgouchet/radiovoice/AnchorVoice.kt:103-112 | `SUCCESS` makes the voice ready and changes nothing else; any other status changes nothing |
| Voice.QueuedIdsIncrease | app/src/main/java/fr/xgouchet/radiovoice/AnchorVoice.kt:34-37 | the ids handed out strictly increase, so none repeats |
| Voice.SpeakThree | app/src/main/java/fr/xgouchet/radiovoice/AnchorVoice.kt:32-49 | a ready voice speaks three messages under ids 1, 2, 3, remembers id 3 and holds no focus |
| Voice.FocusAcrossThreeUtterances | app/src/main/java/fr/xgouchet/radiovoice/AnchorVoice.kt:53-88 | with callbacks start 1, done 1, start 2, start 3, done 3, done 2, focus is requested once (at start 1) and given back once (at done 3) |
| Receiver.GetString | app/src/main/java/fr/xgouchet/radiovoice/MusicPlaybackReceiver.kt:25-27 | a string exactly when the key holds a string value, and that value |
| Receiver.GetBoolean | app/src/main/java/fr/xgouchet/radiovoice/MusicPlaybackReceiver.kt:28-29 | true exactly when the key holds the boolean `true` |
| Receiver.DecodeState | app/src/main/java/fr/xgouchet/radiovoice/MusicPlaybackReceiver.kt:31-35 | `PLAYING` iff playing; `PREPARING` iff preparing and not playing; `STOPPED` iff neither |
| Receiver.Decode | app/src/main/java/fr/xgouchet/radiovoice/MusicPlaybackReceiver.kt:20-38 | no update exactly when there are no extras; otherwise the track's title, artist and album are read from `"track"`, `"artist"` and `"album"`, and the state is `PLAYING` iff `"playing"` and `PREPARING` iff `"preparing"` without `"playing"` |
| Receiver.DecodeEncode | app/src/main/java/fr/xgouchet/radiovoice/MusicPlaybackReceiver.kt:20-38 | decoding the extras a player broadcasts for a track and a state gives back that track and state |
| Receiver.DecodeReadsFiveKeys | app/src/main/java/fr/xgouchet/radiovoice/MusicPlaybackReceiver.kt:25-29 | two bundles that agree on the five keys decode to the same update |

## Left out

- Concurrency is not modelled. This covers `suspend`, `withContext(Dispatchers.Default)`,
  `GlobalScope.launch`, `synchronized` around the counter, `Thread.sleep(100)` and the
  callbacks arriving on engine threads. Each method is one atomic step.
- The speech engine and the audio manager are not modelled:
  - A call to them is an entry in the ghost trace.
  - The audio manager's answer to a focus request is an input: granted, delayed, failed,
    or no manager (a null `audioManager`).
  - Building the `AudioFocusRequest` and its attributes, the `Bundle` of stream, volume
    and pan parameters, `setOnUtteranceProgressListener` and the choice of voice and
    locale are left out.
- `onAudioFocusChange` and all `Log` calls only log and are left out.
- The system clock and Forge's random draw are parameters: `now` and `pick`. A draw
  selects alternative `pick % n`.
- The session UUID is a constructor parameter.
- Voice.AnchorVoice.QueueMessage: `messageCount` is an unbounded `nat`. The source's 32-bit
  `Int` would wrap after 2^31 - 1 messages, which is out of reach in practice.
- Voice.AnchorVoice.OnDone: an utterance id of `null`, and the initial `""` of
  `lastUtteranceId`, are both `None`, and `None` never matches. The engine reporting the id
  `""` while focus is held before anything was spoken is not modelled.
- Text.IsWhitespace lists the JVM's whitespace and space characters as code points. Its
  agreement with the running JVM's Unicode version is assumed, not proved.
- `RadioVoiceService` and `MainActivity` (wiring and UI) are not part of this model.
- `Track` and `TrackState` are modelled as a data class of three nullable strings and a
  three-valued enum, in the constructor order `Track(title, artist, album)` used at
  MusicPlaybackReceiver.kt:38.
- Strings are sequences of Unicode scalar values, whereas Kotlin strings are UTF-16 code
  units: a lone surrogate in a broadcast string cannot be represented. On representable
  text the whitespace test and the regex behave the same.
