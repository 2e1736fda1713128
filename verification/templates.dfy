/**
 * Kotlin string templates (`"We have $album on tap now, with: $title"`) and the random pick
 * among a family of alternatives (`forge.anElementFrom(...)`).
 */
module Templates {

  /** The three fields a template can interpolate: `$title`, `$artist` and `$album`. */
  datatype Field = Title | Artist | Album

  /** One piece of a string template: a literal phrase, by number, or an interpolated field. */
  datatype Piece = Lit(phrase: nat) | Slot(field: Field)

  type Template = seq<Piece>

  /** The values substituted for `$title`, `$artist` and `$album`. */
  datatype Fields = Fields(title: string, artist: string, album: string)

  /**
   * The literal text of the anchor's templates, numbered in the order the templates list
   * them: the no-title family (both fields, artist only, album only, neither), then the
   * no-source, same-artist, same-album, new-album and new-artist families. Each of the 55
   * numbers has a non-empty text; a number past the end stands for no text, and no template
   * uses one.
   */
  function Phrase(k: nat): (r: string)
    ensures r == "" <==> k > 54
  {
    match k
    case 0 => "Here's a track from: "
    case 1 => "; the famous album by "
    case 2 => "."
    case 3 => "I just pulled up "
    case 4 => "; by "
    case 5 => "."
    case 6 => "Let's spend the next few minutes with: "
    case 7 => ", and a track from: "
    case 8 => "."
    case 9 => "Let's change the mood with a few notes by: "
    case 10 => "."
    case 11 => "It's now time for some "
    case 12 => "."
    case 13 => "Let's change the mood with a few notes from: "
    case 14 => "."
    case 15 => "The next track comes straight out of: "
    case 16 => "."
    case 17 => "And now, close your eyes and let the music speak to you\U{2026}"
    case 18 => "The next one is a surprise\U{2026} Can you guess what it is?"
    case 19 => "And now, we're listening to: "
    case 20 => "Next up: "
    case 21 => "Let's change the mood now, with: "
    case 22 => "I hope you like "
    case 23 => ", because here's another one of their best songs: "
    case 24 => "!"
    case 25 => "I can't have enough of "
    case 26 => ". Here comes: "
    case 27 => "."
    case 28 => "That was "
    case 29 => ". And again now, with: "
    case 30 => "."
    case 31 => "I could play "
    case 32 => " all day long. Hope you don't mind, cause now it's: "
    case 33 => "."
    case 34 => "And now, let's hear: "
    case 35 => "; also from "
    case 36 => "."
    case 37 => "Here\U{2019}s another trip down memory lane with: "
    case 38 => "; from "
    case 39 => "We have "
    case 40 => " on tap now, with: "
    case 41 => "Next up is a song sure to soothe you. "
    case 42 => ", from "
    case 43 => "Let\U{2019}s change the pace with: "
    case 44 => "; from: "
    case 45 => "We'll spend the next minutes with "
    case 46 => ", and their hit: "
    case 47 => "Here\U{2019}s another trip down memory lane with: "
    case 48 => "; by "
    case 49 => "We have "
    case 50 => " on tap now, with: "
    case 51 => "Next up is a song sure to soothe you. "
    case 52 => ", by "
    case 53 => "Let\U{2019}s change the pace with: "
    case 54 => "; by: "
    case _ => ""
  }

  /** The value substituted for a field. */
  function Value(x: Field, f: Fields): string {
    match x
    case Title => f.title
    case Artist => f.artist
    case Album => f.album
  }

  /** The text a piece stands for. */
  function PieceText(p: Piece, f: Fields): string {
    match p
    case Lit(k) => Phrase(k)
    case Slot(x) => Value(x, f)
  }

  /** Interpolation: the pieces' texts, concatenated in order. */
  function Render(t: Template, f: Fields): string
    decreases |t|
  {
    if t == [] then "" else PieceText(t[0], f) + Render(t[1..], f)
  }

  /** The fields a template interpolates. */
  function FieldsUsed(t: Template): set<Field> {
    set x | x in {Title, Artist, Album} && Slot(x) in t
  }

  /** Every template of `family` interpolates exactly `fields`. */
  predicate AllUse(family: seq<Template>, fields: set<Field>) {
    forall i :: 0 <= i < |family| ==> FieldsUsed(family[i]) == fields
  }

  /** `sub` occurs in `s` starting at index `i`. */
  predicate OccursAt(s: string, sub: string, i: int) {
    0 <= i <= |s| - |sub| && s[i..i + |sub|] == sub
  }

  /** `sub` occurs somewhere in `s`. */
  ghost predicate Contains(s: string, sub: string) {
    exists i :: OccursAt(s, sub, i)
  }

  lemma ContainsPrefix(a: string, b: string)
    ensures Contains(a + b, a)
  {
    assert OccursAt(a + b, a, 0);
  }

  lemma ContainsShifted(a: string, b: string, sub: string)
    requires Contains(b, sub)
    ensures Contains(a + b, sub)
  {
    var i :| OccursAt(b, sub, i);
    assert (a + b)[|a| + i..|a| + i + |sub|] == b[i..i + |sub|];
    assert OccursAt(a + b, sub, |a| + i);
  }

  /** Every field a template interpolates appears, verbatim, in the rendered text. */
  lemma {:induction false} RenderMentions(t: Template, f: Fields, x: Field)
    requires x in FieldsUsed(t)
    ensures Contains(Render(t, f), Value(x, f))
    decreases |t|
  {
    if t[0] == Slot(x) {
      ContainsPrefix(Value(x, f), Render(t[1..], f));
    } else {
      assert Slot(x) in t[1..];
      RenderMentions(t[1..], f, x);
      ContainsShifted(PieceText(t[0], f), Render(t[1..], f), Value(x, f));
    }
  }

  /**
   * `forge.anElementFrom(a0, a1, ...)`: one of the alternatives. The random draw is the
   * parameter `pick`; any pick selects an alternative and every alternative can be selected.
   */
  function AnElementFrom<T>(alternatives: seq<T>, pick: nat): (r: T)
    requires |alternatives| > 0
    ensures r in alternatives
    ensures pick < |alternatives| ==> r == alternatives[pick]
  {
    alternatives[pick % |alternatives|]
  }
}
