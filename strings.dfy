/**
 * The JavaScript string operations the helpers call: `toLowerCase` and
 * `toUpperCase` restricted to ASCII letters, `split` on a one-character
 * separator and `join`; with them the prefix, suffix and substring
 * predicates the contracts are written with. `Contains` is also what the
 * case-insensitive trigger patterns reduce to.
 */
module Strings {
  import opened Wrappers

  /** `toLowerCase` on one character, for the ASCII letters. */
  function LowerChar(c: char): char {
    if 'A' <= c <= 'Z' then (c as int + 32) as char else c
  }

  /** `toUpperCase` on one character, for the ASCII letters. */
  function UpperChar(c: char): char {
    if 'a' <= c <= 'z' then (c as int - 32) as char else c
  }

  /** Lower-casing forgets whether a character was upper- or lower-cased first. */
  lemma CaseFold(c: char)
    ensures LowerChar(UpperChar(c)) == LowerChar(c)
    ensures LowerChar(LowerChar(c)) == LowerChar(c)
  {
  }

  /** `s.toLowerCase()`: every character lower-cased in place. */
  function Lower(s: string): (r: string)
    ensures |r| == |s|
    ensures forall i {:trigger r[i]} :: 0 <= i < |s| ==> r[i] == LowerChar(s[i])
  {
    if s == [] then [] else [LowerChar(s[0])] + Lower(s[1..])
  }

  /** Lower-casing works piece by piece. */
  lemma LowerConcat(a: string, b: string)
    ensures Lower(a + b) == Lower(a) + Lower(b)
  {
  }

  /** `s.toUpperCase()`: every character upper-cased in place. */
  function Upper(s: string): (r: string)
    ensures |r| == |s|
    ensures forall i {:trigger r[i]} :: 0 <= i < |s| ==> r[i] == UpperChar(s[i])
  {
    if s == [] then [] else [UpperChar(s[0])] + Upper(s[1..])
  }

  /** `p` is a prefix of `s`. */
  predicate IsPrefix(p: string, s: string) {
    |p| <= |s| && s[..|p|] == p
  }

  /** `p` is a suffix of `s`. */
  predicate IsSuffix(p: string, s: string) {
    |p| <= |s| && s[|s| - |p|..] == p
  }

  /** `word` occurs in `text` starting at index `i`. */
  predicate OccursAt(text: string, word: string, i: nat) {
    i + |word| <= |text| && text[i..i + |word|] == word
  }

  /** `word` is a substring of `text`, searched from the left. */
  predicate Contains(text: string, word: string)
    decreases |text|
  {
    IsPrefix(word, text) || (|text| > 0 && Contains(text[1..], word))
  }

  /** The left-to-right search finds exactly the words that occur at some index. */
  lemma {:induction false} ContainsIffOccurs(text: string, word: string)
    ensures Contains(text, word) <==> exists i: nat :: OccursAt(text, word, i)
    decreases |text|
  {
    if |text| > 0 {
      ContainsIffOccurs(text[1..], word);
      if IsPrefix(word, text) {
        assert OccursAt(text, word, 0);
      }
      if Contains(text[1..], word) {
        var j: nat :| OccursAt(text[1..], word, j);
        assert text[j + 1..j + 1 + |word|] == text[1..][j..j + |word|];
        assert OccursAt(text, word, j + 1);
      }
      if i: nat :| OccursAt(text, word, i) {
        if i > 0 {
          assert text[1..][i - 1..i - 1 + |word|] == text[i..i + |word|];
          assert OccursAt(text[1..], word, i - 1);
        } else {
          assert text[..|word|] == text[i..i + |word|];
        }
      }
    } else if |word| == 0 {
      assert OccursAt(text, word, 0);
    }
  }

  /** A word occurring at a known index is found. */
  lemma OccursIsContained(text: string, word: string, i: nat)
    requires OccursAt(text, word, i)
    ensures Contains(text, word)
  {
    ContainsIffOccurs(text, word);
  }

  /** Some word of a list is found exactly when some word of it occurs at some index. */
  lemma AnyContainedIffOccurs(words: seq<string>, text: string)
    ensures (exists w :: w in words && Contains(text, w))
            <==> exists w, i: nat :: w in words && OccursAt(text, w, i)
  {
    forall w | w in words {
      ContainsIffOccurs(text, w);
    }
  }

  /** A word longer than the text is never found. */
  lemma {:induction false} LongerNotContained(text: string, word: string)
    requires |text| < |word|
    ensures !Contains(text, word)
    decreases |text|
  {
    if |text| > 0 {
      LongerNotContained(text[1..], word);
    }
  }

  /** A word whose first character does not appear in the text is never found. */
  lemma {:induction false} FirstCharNotContained(text: string, word: string)
    requires |word| > 0 && word[0] !in text
    ensures !Contains(text, word)
    decreases |text|
  {
    if |text| > 0 {
      assert text[0] != word[0];
      FirstCharNotContained(text[1..], word);
    }
  }

  /**
   * `s.split(sep)` for a one-character separator: the pieces between
   * separators, so there is always one more piece than separators and
   * `"".split(sep)` is `[""]`.
   */
  function Split(s: string, sep: char): (pieces: seq<string>)
    ensures |pieces| >= 1
    ensures forall i :: 0 <= i < |pieces| ==> sep !in pieces[i]
    decreases |s|
  {
    if s == [] then [""]
    else
      assert s == [s[0]] + s[1..];
      var rest := Split(s[1..], sep);
      if s[0] == sep then [""] + rest
      else [[s[0]] + rest[0]] + rest[1..]
  }

  /** A string value JavaScript treats as true: present and non-empty. */
  predicate Truthy(value: Option<string>) {
    value.Some? && value.value != ""
  }

  /** `value || fallback` on a possibly absent string. */
  function OrElse(value: Option<string>, fallback: string): (r: string)
    ensures Truthy(value) ==> r == value.value
    ensures !Truthy(value) ==> r == fallback
  {
    if Truthy(value) then value.value else fallback
  }

  /** There is one more piece than there are separators. */
  lemma {:induction false} SplitCount(s: string, sep: char)
    ensures |Split(s, sep)| == multiset(s)[sep] + 1
    decreases |s|
  {
    if s != [] {
      SplitCount(s[1..], sep);
      assert s == [s[0]] + s[1..];
      assert multiset(s) == multiset{s[0]} + multiset(s[1..]);
    }
  }

  /** `pieces.join(sep)`; joining no pieces gives `""`. */
  function Join(pieces: seq<string>, sep: string): string {
    if |pieces| == 0 then ""
    else if |pieces| == 1 then pieces[0]
    else pieces[0] + sep + Join(pieces[1..], sep)
  }

  /** Joining two non-empty lists of pieces puts one separator between their joins. */
  lemma {:induction false} JoinAppend(xs: seq<string>, ys: seq<string>, sep: string)
    requires |xs| >= 1 && |ys| >= 1
    ensures Join(xs + ys, sep) == Join(xs, sep) + sep + Join(ys, sep)
    decreases |xs|
  {
    if |xs| == 1 {
      assert (xs + ys)[1..] == ys;
    } else {
      assert (xs + ys)[1..] == xs[1..] + ys;
      JoinAppend(xs[1..], ys, sep);
    }
  }

  /** Joining the pieces of a split with the same separator gives back the string. */
  lemma {:induction false} JoinSplit(s: string, sep: char)
    ensures Join(Split(s, sep), [sep]) == s
    decreases |s|
  {
    if s != [] {
      var rest := Split(s[1..], sep);
      JoinSplit(s[1..], sep);
      assert s == [s[0]] + s[1..];
      if s[0] == sep {
        assert Split(s, sep) == [""] + rest;
        JoinCons("", rest, [sep]);
      } else {
        assert Split(s, sep) == [[s[0]] + rest[0]] + rest[1..];
        JoinExtendFirst(s[0], rest, [sep]);
      }
    }
  }

  /** Joining a piece in front of at least one more puts one separator after it. */
  lemma JoinCons(first: string, rest: seq<string>, sep: string)
    requires |rest| >= 1
    ensures Join([first] + rest, sep) == first + sep + Join(rest, sep)
  {
    assert ([first] + rest)[1..] == rest;
  }

  /** Extending the first piece by a character in front extends the join by that character. */
  lemma JoinExtendFirst(c: char, pieces: seq<string>, sep: string)
    requires |pieces| >= 1
    ensures Join([[c] + pieces[0]] + pieces[1..], sep) == [c] + Join(pieces, sep)
  {
    if |pieces| > 1 {
      JoinCons([c] + pieces[0], pieces[1..], sep);
      JoinCons(pieces[0], pieces[1..], sep);
      assert [pieces[0]] + pieces[1..] == pieces;
    }
  }

  /** A string without the separator splits into itself. */
  lemma {:induction false} SplitWithoutSeparator(s: string, sep: char)
    requires sep !in s
    ensures Split(s, sep) == [s]
    decreases |s|
  {
    if s != [] {
      SplitWithoutSeparator(s[1..], sep);
      assert [s[0]] + s[1..] == s;
    }
  }

  /** Splitting at a separator splits both sides independently. */
  lemma {:induction false} SplitAround(a: string, b: string, sep: char)
    ensures Split(a + [sep] + b, sep) == Split(a, sep) + Split(b, sep)
    decreases |a|
  {
    if a == [] {
      assert a + [sep] + b == [sep] + b;
      assert ([sep] + b)[1..] == b;
    } else {
      var whole := a + [sep] + b;
      assert whole[1..] == a[1..] + [sep] + b;
      SplitAround(a[1..], b, sep);
    }
  }

  /** Splitting the join of separator-free pieces gives the pieces back. */
  lemma {:induction false} SplitJoin(pieces: seq<string>, sep: char)
    requires |pieces| >= 1
    requires forall i :: 0 <= i < |pieces| ==> sep !in pieces[i]
    ensures Split(Join(pieces, [sep]), sep) == pieces
    decreases |pieces|
  {
    SplitWithoutSeparator(pieces[0], sep);
    if |pieces| > 1 {
      SplitJoin(pieces[1..], sep);
      SplitAround(pieces[0], Join(pieces[1..], [sep]), sep);
      assert [pieces[0]] + pieces[1..] == pieces;
    }
  }

  /** The join of the first `k` pieces is a prefix of the join of all of them. */
  lemma JoinOfFirstPieces(pieces: seq<string>, sep: string, k: nat)
    requires k <= |pieces|
    ensures IsPrefix(Join(pieces[..k], sep), Join(pieces, sep))
  {
    if 0 < k < |pieces| {
      var before, after := pieces[..k], pieces[k..];
      assert pieces == before + after;
      JoinAppend(before, after, sep);
      var j := Join(before, sep);
      assert Join(pieces, sep)[..|j|] == j;
    } else if k == |pieces| {
      assert pieces[..k] == pieces;
    }
  }

  /** The join of the first `k` pieces of a split is a prefix of the split string. */
  lemma JoinFirstPiecesIsPrefix(s: string, sep: char, k: nat)
    ensures IsPrefix(Join(Split(s, sep)[..if k < |Split(s, sep)| then k else |Split(s, sep)|], [sep]), s)
  {
    var pieces := Split(s, sep);
    JoinSplit(s, sep);
    JoinOfFirstPieces(pieces, [sep], if k < |pieces| then k else |pieces|);
  }

  /** Where piece `k` starts in `Join(pieces, sep)`: the pieces before it and one separator after each. */
  function JoinOffset(pieces: seq<string>, sep: string, k: nat): nat
    requires k <= |pieces|
  {
    if k == 0 then 0 else |pieces[0]| + |sep| + JoinOffset(pieces[1..], sep, k - 1)
  }

  /** An occurrence stays where it is when text is appended. */
  lemma OccursExtended(a: string, b: string, word: string, i: nat)
    requires OccursAt(a, word, i)
    ensures OccursAt(a + b, word, i)
  {
    assert (a + b)[i..i + |word|] == a[i..i + |word|];
  }

  /** An occurrence moves right by the length of the text put in front. */
  lemma OccursShifted(a: string, b: string, word: string, i: nat)
    requires OccursAt(b, word, i)
    ensures OccursAt(a + b, word, |a| + i)
  {
    assert (a + b)[|a| + i..|a| + i + |word|] == b[i..i + |word|];
  }

  /** An occurrence moves left by the length of the text dropped in front of it. */
  lemma OccursDropped(text: string, word: string, i: nat, n: nat)
    requires OccursAt(text, word, i) && n <= i
    ensures OccursAt(text[n..], word, i - n)
  {
    assert text[n..][i - n..i - n + |word|] == text[i..i + |word|];
  }

  /** An occurrence inside piece `k` is found in the join, shifted by the offset of that piece. */
  lemma {:induction false} OccursInJoin(pieces: seq<string>, sep: string, k: nat, word: string, i: nat)
    requires k < |pieces| && OccursAt(pieces[k], word, i)
    ensures OccursAt(Join(pieces, sep), word, JoinOffset(pieces, sep, k) + i)
    decreases |pieces|
  {
    if |pieces| > 1 {
      var rest := Join(pieces[1..], sep);
      if k == 0 {
        assert Join(pieces, sep) == pieces[0] + (sep + rest);
        OccursExtended(pieces[0], sep + rest, word, i);
      } else {
        assert Join(pieces, sep) == (pieces[0] + sep) + rest;
        assert pieces[1..][k - 1] == pieces[k];
        OccursInJoin(pieces[1..], sep, k - 1, word, i);
        OccursShifted(pieces[0] + sep, rest, word, JoinOffset(pieces[1..], sep, k - 1) + i);
      }
    }
  }

  /** `text` is `lead`, then `field`, then `tail`, with `field` at offset `|lead|`. */
  predicate Frames(text: string, lead: string, field: string, tail: string) {
    && |text| == |lead| + |field| + |tail|
    && IsPrefix(lead, text)
    && OccursAt(text, field, |lead|)
    && IsSuffix(tail, text)
  }

  /** Concatenating a lead, a field and a tail frames the field. */
  lemma FramesConcat(lead: string, field: string, tail: string)
    ensures Frames(lead + field + tail, lead, field, tail)
  {
    var text := lead + field + tail;
    assert text[..|lead|] == lead;
    assert text[|lead|..|lead| + |field|] == field;
    assert text[|text| - |tail|..] == tail;
  }

  /** The field a template embedded, recovered by cutting off the lead and the tail. */
  lemma {:induction false} FramedFieldRecovered(text: string, lead: string, field: string, tail: string)
    requires Frames(text, lead, field, tail)
    ensures text[|lead|..|text| - |tail|] == field
    ensures text == lead + field + tail
  {
    assert text[..|lead|] == lead;
    assert text[|lead|..|lead| + |field|] == field;
    assert text[|text| - |tail|..] == tail;
    assert text == text[..|lead|] + text[|lead|..|lead| + |field|] + text[|text| - |tail|..];
  }

  /** Two fields between a lead, a middle and a tail: the first is framed, the second sits after the middle. */
  lemma FramesTwoFields(lead: string, first: string, middle: string, second: string, tail: string)
    ensures Frames(lead + first + middle + second + tail, lead, first, middle + second + tail)
    ensures OccursAt(lead + first + middle + second + tail, second, |lead| + |first| + |middle|)
    ensures IsSuffix(tail, lead + first + middle + second + tail)
  {
    assert lead + first + middle + second + tail == lead + first + (middle + second + tail);
    FramesConcat(lead, first, middle + second + tail);
    FramesConcat(lead + first + middle, second, tail);
  }

  /** A prefix of a prefix is a prefix. */
  lemma PrefixOfPrefix(p: string, q: string, s: string)
    requires IsPrefix(p, q) && IsPrefix(q, s)
    ensures IsPrefix(p, s)
  {
    assert s[..|p|] == s[..|q|][..|p|];
  }

  /** A suffix of a suffix is a suffix. */
  lemma SuffixOfSuffix(p: string, q: string, s: string)
    requires IsSuffix(p, q) && IsSuffix(q, s)
    ensures IsSuffix(p, s)
  {
    assert s[|s| - |p|..] == s[|s| - |q|..][|q| - |p|..];
  }

  /** A prefix `r` of a suffix `t` of `s` occurs in `s` where `t` starts, and `s` continues as `t` does. */
  lemma PrefixOfSuffix(s: string, t: string, r: string)
    requires IsSuffix(t, s) && IsPrefix(r, t)
    ensures OccursAt(s, r, |s| - |t|)
    ensures forall i :: |s| - |t| <= i < |s| ==> s[i] == t[i - (|s| - |t|)]
  {
    var k := |s| - |t|;
    assert s[k..k + |r|] == t[..|r|];
  }
}
