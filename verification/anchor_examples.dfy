/** Worked cases of the announcement decision. */
module AnchorExamples {
  import opened Types
  import opened Text
  import opened Templates
  import opened Anchor

  /**
   * Previous track (`a` by `x` on `m`), new track (`b` by `x` on `n`): the same-artist
   * family with artist `x` and title `b` (e.g. "A", "B", "X", "M", "N").
   */
  lemma SameArtistClassified(a: string, b: string, x: string, m: string, n: string)
    requires !IsBlank(b) && '(' !in b && !IsBlank(x)
    ensures Classify(Track(Some(b), Some(x), Some(n)), Some(Track(Some(a), Some(x), Some(m))))
            == SameArtist(x, b)
  {
    var track := Track(Some(b), Some(x), Some(n));
    assert CleanTitle(track) == Some(b);
  }

  /** The same tracks, playing, with distinct titles: the anchor says a same-artist message. */
  lemma SameArtistAnnounced(a: string, b: string, x: string, m: string, n: string, pick: nat)
    requires !IsBlank(b) && '(' !in b && !IsBlank(x) && a != b
    ensures Announce(Some(Track(Some(a), Some(x), Some(m))), Track(Some(b), Some(x), Some(n)), PLAYING, pick)
            == Some(Message(SameArtist(x, b), pick))
  {
    SameArtistClassified(a, b, x, m, n);
  }

  /** A same-artist message names the artist `x` and the title `b`. */
  lemma SameArtistMentions(x: string, b: string, pick: nat)
    ensures Contains(Message(SameArtist(x, b), pick), x) && Contains(Message(SameArtist(x, b), pick), b)
  {
    MessageMentionsFields(SameArtist(x, b), pick, Artist);
    MessageMentionsFields(SameArtist(x, b), pick, Title);
  }

  /**
   * No previous track, new track without a title by `x` on `m`: the no-title family for
   * both fields (e.g. "X" and "M").
   */
  lemma NoTitleClassified(x: string, m: string)
    requires !IsBlank(x) && !IsBlank(m)
    ensures Classify(Track(None, Some(x), Some(m)), None) == NoTitleBoth(x, m)
  {
  }

  /** The same track, playing: the anchor says a no-title message for both fields. */
  lemma NoTitleAnnounced(x: string, m: string, pick: nat)
    requires !IsBlank(x) && !IsBlank(m)
    ensures Announce(None, Track(None, Some(x), Some(m)), PLAYING, pick) == Some(Message(NoTitleBoth(x, m), pick))
  {
    NoTitleClassified(x, m);
  }

  /** Such a message names the artist `x` and the album `m`. */
  lemma NoTitleMentions(x: string, m: string, pick: nat)
    ensures Contains(Message(NoTitleBoth(x, m), pick), x) && Contains(Message(NoTitleBoth(x, m), pick), m)
  {
    MessageMentionsFields(NoTitleBoth(x, m), pick, Artist);
    MessageMentionsFields(NoTitleBoth(x, m), pick, Album);
  }

  /** A title made of one group is cleaned to the empty string, which is still a present title. */
  lemma LiveOnlyTitleIsPresent(artist: Option<string>, album: Option<string>)
    ensures CleanTitle(Track(Some("(Live)"), artist, album)) == Some("")
  {
    assert !IsWhitespace('(');
    assert "(Live)" == "(" + "Live" + ")" + "";
    GroupDropped("Live", "");
  }
}
