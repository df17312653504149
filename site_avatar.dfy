/**
 * The avatar letter of each row of the assessment table
 * (src/components/Dashboard.jsx, line 484): `site.split(' ')[1].charAt(0)`,
 * the first character of the site name's second space-separated piece.
 */
module SiteAvatar {
  import opened Wrappers

  /** The position of the first occurrence of `c` in `s`. */
  function IndexOf(s: string, c: char): (i: nat)
    requires c in s
    ensures i < |s| && s[i] == c
    ensures c !in s[..i]
  {
    if s[0] == c then 0 else 1 + IndexOf(s[1..], c)
  }

  /** A position holding `c` with no `c` before it is the one `IndexOf` finds. */
  lemma IndexOfIsFirst(s: string, c: char, j: nat)
    requires j < |s| && s[j] == c && c !in s[..j]
    ensures IndexOf(s, c) == j
  {
  }

  /**
   * JavaScript's `s.split(sep)` for a one-character separator: the pieces
   * between separators, empty ones included, so that a string with k
   * separators has k + 1 pieces.
   */
  function Split(s: string, sep: char): (pieces: seq<string>)
    ensures |pieces| >= 1
    ensures forall k :: 0 <= k < |pieces| ==> sep !in pieces[k]
    ensures Join(pieces, sep) == s
    decreases |s|
  {
    if sep !in s then [s]
    else
      var i := IndexOf(s, sep);
      var rest := Split(s[i + 1..], sep);
      assert s == s[..i] + [sep] + s[i + 1..];
      [s[..i]] + rest
  }

  /** `pieces.join(sep)`: the pieces with one separator between neighbours. */
  function Join(pieces: seq<string>, sep: char): string
    requires |pieces| >= 1
  {
    if |pieces| == 1 then pieces[0] else pieces[0] + [sep] + Join(pieces[1..], sep)
  }

  /** Splitting is the inverse of joining pieces free of the separator. */
  lemma {:induction false} SplitJoin(pieces: seq<string>, sep: char)
    requires |pieces| >= 1
    requires forall k :: 0 <= k < |pieces| ==> sep !in pieces[k]
    ensures Split(Join(pieces, sep), sep) == pieces
  {
    var s := Join(pieces, sep);
    if |pieces| == 1 {
      assert sep !in s;
    } else {
      var tail := Join(pieces[1..], sep);
      assert s == pieces[0] + [sep] + tail;
      assert sep in s by { assert s[|pieces[0]|] == sep; }
      assert s[..|pieces[0]|] == pieces[0];
      IndexOfIsFirst(s, sep, |pieces[0]|);
      var i := IndexOf(s, sep);
      assert s[i + 1..] == tail;
      SplitJoin(pieces[1..], sep);
    }
  }

  /** `str.charAt(0)`: the first character, or the empty string for an empty string. */
  function FirstChar(s: string): (r: string)
    ensures |r| <= 1
    ensures if |s| > 0 then r == [s[0]] else r == ""
  {
    if |s| > 0 then [s[0]] else ""
  }

  /** The one way line 484 fails: a name without a space has no second piece, and reading its first character throws. */
  datatype AvatarError = NoSecondWord

  /** The avatar letter as line 484 computes it. */
  function AvatarInitial(name: string): (r: Result<string, AvatarError>)
    ensures r.Failure? <==> ' ' !in name
    ensures r.Success? ==> |r.value| <= 1
  {
    var pieces := Split(name, ' ');
    if |pieces| < 2 then
      Failure(NoSecondWord)
    else
      assert ' ' in name by { assert name == Join(pieces, ' '); assert name[|pieces[0]|] == ' '; }
      Success(FirstChar(pieces[1]))
  }

  /**
   * Independent reading of line 484: the avatar letter is the character right
   * after the first space, or nothing when that character is missing or is
   * itself a space (an empty second piece).
   */
  lemma AvatarIsCharAfterFirstSpace(name: string)
    requires ' ' in name
    ensures var i := IndexOf(name, ' ');
      AvatarInitial(name) == Success(if i + 1 < |name| && name[i + 1] != ' ' then [name[i + 1]] else "")
  {
  }
}
