/**
 * String helpers of the announcement engine: Kotlin's blank test, `nullIfBlank`, and
 * the title cleanup `title.replace(Regex("\\([^)]+\\)"), "")`.
 */
module Text {
  import opened Types

  /** Kotlin's `Char.isWhitespace` on the JVM: `Character.isWhitespace(c) || Character.isSpaceChar(c)`. */
  predicate IsWhitespace(c: char) {
    var n := c as int;
    (0x09 <= n <= 0x0D) || (0x1C <= n <= 0x20) || n == 0xA0 || n == 0x1680
    || (0x2000 <= n <= 0x200A) || n == 0x2028 || n == 0x2029 || n == 0x202F
    || n == 0x205F || n == 0x3000
  }

  /** `CharSequence.isBlank()`: empty or whitespace only. */
  predicate IsBlank(s: string) {
    forall i :: 0 <= i < |s| ==> IsWhitespace(s[i])
  }

  /** `String?.isNullOrBlank()`. */
  predicate IsNullOrBlank(s: Option<string>) {
    s.None? || IsBlank(s.value)
  }

  /** `String?.nullIfBlank()`: the text when it holds a visible character, otherwise `null`. */
  function NullIfBlank(s: Option<string>): (r: Option<string>)
    ensures r.None? <==> IsNullOrBlank(s)
    ensures r.Some? ==> r == s && exists i :: 0 <= i < |r.value| && !IsWhitespace(r.value[i])
  {
    if IsNullOrBlank(s) then None else s
  }

  /** Index of the first `)` of `s`, or `|s|` when there is none. */
  function CloseAt(s: string): (k: nat)
    ensures k <= |s|
    ensures k < |s| ==> s[k] == ')'
    ensures forall i :: 0 <= i < k ==> s[i] != ')'
  {
    if s == [] || s[0] == ')' then 0 else 1 + CloseAt(s[1..])
  }

  /**
   * The regex `\([^)]+\)` matches at the start of `s`: a `(`, then one or more characters
   * other than `)`, then the first `)` after them. The match is `s[..CloseAt(s[1..]) + 2]`.
   */
  predicate GroupAt(s: string) {
    |s| > 0 && s[0] == '(' && 0 < CloseAt(s[1..]) < |s| - 1
  }

  /** No position of `s` starts a match of `\([^)]+\)`. */
  predicate GroupFree(s: string)
    decreases |s|
  {
    s == [] || (!GroupAt(s) && GroupFree(s[1..]))
  }

  /**
   * `replace(Regex("\\([^)]+\\)"), "")`: scan left to right; at each match delete it and
   * resume right after its `)`; any other character is kept. Nothing is trimmed.
   */
  function StripGroups(s: string): (r: string)
    decreases |s|
    ensures |r| <= |s|
  {
    if s == [] then []
    else if GroupAt(s) then StripGroups(s[CloseAt(s[1..]) + 2..])
    else [s[0]] + StripGroups(s[1..])
  }

  /** A title without `(` comes back unchanged. */
  lemma {:induction false} NoOpenUnchanged(s: string)
    requires '(' !in s
    ensures StripGroups(s) == s
    decreases |s|
  {
    if s != [] {
      assert s[0] in s;
      assert forall c :: c in s[1..] ==> c in s;
      NoOpenUnchanged(s[1..]);
    }
  }

  /** The cleanup only deletes: a `)` in the result was already in the input. */
  lemma {:induction false} NoCloseStaysAbsent(s: string)
    requires ')' !in s
    ensures ')' !in StripGroups(s)
    decreases |s|
  {
    if s != [] {
      assert forall c :: c in s[1..] ==> c in s;
      NoCloseStaysAbsent(s[1..]);
    }
  }

  /** A text in which nothing matches is left as it is. */
  lemma {:induction false} GroupFreeUnchanged(s: string)
    requires GroupFree(s)
    ensures StripGroups(s) == s
    decreases |s|
  {
    if s != [] {
      GroupFreeUnchanged(s[1..]);
    }
  }

  /** After the replacement nothing matches any more (the scan leaves no group behind). */
  lemma {:induction false} StripGroupsGroupFree(s: string)
    ensures GroupFree(StripGroups(s))
    decreases |s|
  {
    if s == [] {
    } else if GroupAt(s) {
      StripGroupsGroupFree(s[CloseAt(s[1..]) + 2..]);
    } else {
      var rest := StripGroups(s[1..]);
      StripGroupsGroupFree(s[1..]);
      var r := [s[0]] + rest;
      assert r[1..] == rest;
      if s[0] == '(' && rest != [] {
        if CloseAt(s[1..]) == 0 {
          // s[1] is ')': it cannot start a group, so the cleaned rest starts with it
          assert !GroupAt(s[1..]);
          assert rest[0] == ')';
          assert CloseAt(rest) == 0;
        } else {
          // no ')' after the '(' in s, hence none in the cleaned rest either
          assert ')' !in s[1..];
          NoCloseStaysAbsent(s[1..]);
          assert CloseAt(rest) == |rest|;
        }
      }
    }
  }

  /** Cleaning a cleaned title changes nothing. */
  lemma StripGroupsIdempotent(s: string)
    ensures StripGroups(StripGroups(s)) == StripGroups(s)
  {
    StripGroupsGroupFree(s);
    GroupFreeUnchanged(StripGroups(s));
  }

  /** Text without `(` passes through unchanged in front of whatever follows it. */
  lemma {:induction false} PlainPrefix(p: string, s: string)
    requires '(' !in p
    ensures StripGroups(p + s) == p + StripGroups(s)
    decreases |p|
  {
    if p == [] {
      assert p + s == s;
    } else {
      var ps := p + s;
      assert ps[0] == p[0] != '(';
      assert ps[1..] == p[1..] + s;
      PlainPrefix(p[1..], s);
      assert StripGroups(ps) == [p[0]] + StripGroups(ps[1..]);
      assert p == [p[0]] + p[1..];
    }
  }

  /**
   * A group `(c)` with non-empty content and no `)` inside is deleted, and the scan
   * resumes right after its `)`.
   */
  lemma GroupDropped(c: string, t: string)
    requires c != [] && ')' !in c
    ensures StripGroups("(" + c + ")" + t) == StripGroups(t)
  {
    var s := "(" + c + ")" + t;
    var inner := c + ")" + t;
    assert s[1..] == inner;
    assert inner[|c|] == ')';
    assert forall i :: 0 <= i < |c| ==> inner[i] == c[i];
    assert CloseAt(inner) == |c|;
    assert s[|c| + 2..] == t;
  }
}
