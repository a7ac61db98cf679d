/**
 * Paragraph detection in the token indexer: the raw text skipped between two
 * tokens is tested against the regular expression `^\W*\n\n\W*$`, matched from
 * the start of the text with MULTILINE set, and the skipped text is obtained by
 * a Python slice of the raw document.
 */
module Paragraphs {

  /** `\w` without re.UNICODE: an ASCII letter, an ASCII digit or the underscore. */
  predicate IsWordChar(c: char) {
    'a' <= c <= 'z' || 'A' <= c <= 'Z' || '0' <= c <= '9' || c == '_'
  }

  predicate AllNonWord(s: string) {
    forall k | 0 <= k < |s| :: !IsWordChar(s[k])
  }

  /**
   * One way the pattern can match: the first `\W*` takes `s[..i]`, the blank
   * line is `s[i..i+2]`, the second `\W*` takes `s[i+2..j]`, and `$` holds at `j`
   * because `j` is the end of the text or stands before a newline (MULTILINE).
   */
  predicate SeparatorAt(s: string, i: nat, j: nat)
    requires i + 2 <= j <= |s|
  {
    && AllNonWord(s[..i])
    && s[i..i + 2] == "\n\n"
    && AllNonWord(s[i + 2..j])
    && (j == |s| || s[j] == '\n')
  }

  /** `re.match("^\W*\n\n\W*$", s, flags=re.MULTILINE)` succeeds. */
  predicate IsParagraphSeparator(s: string) {
    exists i, j | 0 <= i <= |s| - 2 && i + 2 <= j <= |s| :: SeparatorAt(s, i, j)
  }

  /**
   * A left-to-right matcher for the same pattern: `seen` records whether the
   * text read so far, `s[..k]`, all of it non-word, holds a blank line; a match
   * is found at the first end-of-line or end of text after one.
   */
  function ScanSeparator(s: string, k: nat, seen: bool): bool
    requires k <= |s|
    decreases |s| - k
  {
    if seen && (k == |s| || s[k] == '\n') then true
    else if k == |s| || IsWordChar(s[k]) then false
    else ScanSeparator(s, k + 1, seen || (k >= 1 && s[k - 1] == '\n' && s[k] == '\n'))
  }

  /** The matcher the indexer runs on the text between two tokens. */
  predicate MatchesSeparator(s: string) {
    ScanSeparator(s, 0, false)
  }

  /** A blank line starts at `i`. */
  predicate BlankAt(s: string, i: nat)
    requires i + 2 <= |s|
  {
    s[i] == '\n' && s[i + 1] == '\n'
  }

  lemma {:induction false} ScanSound(s: string, k: nat, seen: bool)
    requires k <= |s| && AllNonWord(s[..k])
    requires seen ==> exists i | 0 <= i && i + 2 <= k :: BlankAt(s, i)
    requires ScanSeparator(s, k, seen)
    ensures IsParagraphSeparator(s)
    decreases |s| - k
  {
    if seen && (k == |s| || s[k] == '\n') {
      var i :| 0 <= i && i + 2 <= k && BlankAt(s, i);
      assert s[..i] == s[..k][..i];
      assert s[i + 2..k] == s[..k][i + 2..];
      assert SeparatorAt(s, i, k);
    } else {
      var seen' := seen || (k >= 1 && s[k - 1] == '\n' && s[k] == '\n');
      if !seen && seen' {
        assert BlankAt(s, k - 1);
      }
      assert s[..k + 1] == s[..k] + [s[k]];
      ScanSound(s, k + 1, seen');
    }
  }

  lemma {:induction false} ScanComplete(s: string, k: nat, seen: bool, i: nat, j: nat)
    requires i + 2 <= j <= |s| && SeparatorAt(s, i, j)
    requires k <= j && (i + 2 <= k ==> seen)
    ensures ScanSeparator(s, k, seen)
    decreases |s| - k
  {
    if seen && (k == |s| || s[k] == '\n') {
    } else {
      assert k < j;
      if k < i {
        assert s[..i][k] == s[k];
      } else if k >= i + 2 {
        assert s[i + 2..j][k - i - 2] == s[k];
      } else {
        assert s[i..i + 2][k - i] == s[k];
      }
      ScanComplete(s, k + 1, seen || (k >= 1 && s[k - 1] == '\n' && s[k] == '\n'), i, j);
    }
  }

  /** The matcher accepts exactly the texts the regular expression matches. */
  lemma MatchesSeparatorIsRegex(s: string)
    ensures MatchesSeparator(s) <==> IsParagraphSeparator(s)
  {
    if MatchesSeparator(s) {
      ScanSound(s, 0, false);
    }
    if IsParagraphSeparator(s) {
      var i, j :| 0 <= i <= |s| - 2 && i + 2 <= j <= |s| && SeparatorAt(s, i, j);
      ScanComplete(s, 0, false, i, j);
    }
  }

  /** A Python slice index: negative counts from the end, then clamped to the string. */
  function ClampIndex(i: int, n: nat): (c: nat)
    ensures c <= n
    ensures 0 <= i <= n ==> c == i
  {
    if i < 0 then (if i + n < 0 then 0 else i + n) else if i > n then n else i
  }

  /** `s[from:to]` in Python: never fails, and is empty when the bounds cross. */
  function Slice(s: string, from: int, to: int): string {
    var lo, hi := ClampIndex(from, |s|), ClampIndex(to, |s|);
    if lo < hi then seq(hi - lo, i requires 0 <= i < hi - lo => s[lo + i]) else []
  }

  /**
   * In-range bounds slice as usual, crossed bounds give the empty string, a start
   * or an end past the string stops at its end, and a negative bound counts from
   * the end (from the start when it reaches past the start).
   */
  lemma SliceMeaning(s: string, from: int, to: int)
    ensures |Slice(s, from, to)| <= |s|
    ensures 0 <= from <= to <= |s| ==> Slice(s, from, to) == s[from..to]
    ensures 0 <= to <= from ==> Slice(s, from, to) == []
    ensures 0 <= from <= |s| <= to ==> Slice(s, from, to) == s[from..]
    ensures |s| <= from ==> Slice(s, from, to) == []
    ensures -|s| <= from < 0 ==> Slice(s, from, to) == Slice(s, |s| + from, to)
    ensures from < -|s| ==> Slice(s, from, to) == Slice(s, 0, to)
    ensures -|s| <= to < 0 ==> Slice(s, from, to) == Slice(s, from, |s| + to)
    ensures to <= -|s| ==> Slice(s, from, to) == []
  {
    var lo, hi := ClampIndex(from, |s|), ClampIndex(to, |s|);
    if lo < hi {
      assert Slice(s, from, to) == s[lo..hi];
    }
  }

  /** Any gap made only of non-word characters that contains a blank line separates paragraphs. */
  lemma NonWordGapWithBlankLine(s: string, i: nat)
    requires AllNonWord(s) && i + 2 <= |s| && s[i..i + 2] == "\n\n"
    ensures IsParagraphSeparator(s)
  {
    assert SeparatorAt(s, i, |s|);
  }

  /** A blank line at `i` with no word character before it. */
  predicate BlankLineFirstAt(s: string, i: nat)
    requires i + 2 <= |s|
  {
    s[i..i + 2] == "\n\n" && AllNonWord(s[..i + 2])
  }

  /** Every separator holds a blank line with no word character before it. */
  lemma SeparatorHasBlankLine(s: string)
    requires IsParagraphSeparator(s)
    ensures exists i | 0 <= i <= |s| - 2 :: BlankLineFirstAt(s, i)
  {
    var i, j :| 0 <= i <= |s| - 2 && i + 2 <= j <= |s| && SeparatorAt(s, i, j);
    assert forall k | 0 <= k < i + 2 :: s[..i + 2][k] == (if k < i then s[..i][k] else s[i..i + 2][k - i]);
    assert BlankLineFirstAt(s, i);
  }

  /** The text before the first token of wsj_1000 is not a separator: words precede the blank line. */
  lemma StartMarkerIsNotSeparator()
    ensures !IsParagraphSeparator(".START \n\n")
  {
    var s := ".START \n\n";
    forall i, j | 0 <= i <= |s| - 2 && i + 2 <= j <= |s|
      ensures !SeparatorAt(s, i, j)
    {
      if i >= 2 {
        assert s[..i][1] == 'S';
      } else {
        assert s[i..i + 2] != "\n\n" by { assert s[i + 1] != '\n'; }
      }
    }
  }

  /** A blank line followed by a word does not match: `$` needs the end or a newline. */
  lemma BlankLineBeforeWordIsNotSeparator()
    ensures !IsParagraphSeparator("\n\nKemper")
  {
    var s := "\n\nKemper";
    forall i, j | 0 <= i <= |s| - 2 && i + 2 <= j <= |s|
      ensures !SeparatorAt(s, i, j)
    {
      if i >= 3 {
        assert s[..i][2] == 'K';
      } else if i > 0 {
        assert s[i..i + 2] != "\n\n" by { assert s[i + 1] != '\n'; }
      } else if j > 2 {
        assert s[2..j][0] == 'K';
      }
    }
  }

  /** With MULTILINE, `$` also matches before a third newline, so text may follow it. */
  lemma ThirdNewlineEndsSeparator()
    ensures IsParagraphSeparator("\n\n\nKemper")
  {
    var s := "\n\n\nKemper";
    assert SeparatorAt(s, 0, 2);
  }
}
