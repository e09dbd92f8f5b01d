// The avatar initials of a message bubble: the first character of each
// space-separated word, at most two of them, upper-cased.

module MessageBubble {
  import opened JsText

  /** The `name` argument: a string, or any value that is not one. */
  datatype NameArg = NameText(s: string) | NotText

  const Space := ' '

  /** `words.map(word => word[0]).join("")`: an empty word gives
      `undefined`, which joins as nothing. */
  function FirstChars(words: seq<string>): (r: string)
    ensures |r| <= |words|
  {
    if words == [] then []
    else (if words[0] == [] then [] else [words[0][0]]) + FirstChars(words[1..])
  }

  /** The characters of `s` that begin a word: not a space, and first in the
      text (when `atStart`) or right after a space. */
  function WordStarts(s: string, atStart: bool): (r: string)
    ensures Space !in r
    ensures |r| <= |s|
  {
    if s == [] then []
    else (if s[0] != Space && atStart then [s[0]] else []) + WordStarts(s[1..], s[0] == Space)
  }

  /** Splitting on spaces and taking each piece's first character gives the
      word-start characters; the pieces after the first give those after
      the first character. */
  lemma {:induction false} FirstCharsAreWordStarts(s: string)
    ensures FirstChars(Split(s, Space)) == WordStarts(s, true)
    ensures FirstChars(Split(s, Space)[1..]) == WordStarts(s, false)
    decreases |s|
  {
    if s != [] {
      FirstCharsAreWordStarts(s[1..]);
      var rest := Split(s[1..], Space);
      if s[0] == Space {
        assert Split(s, Space) == [[]] + rest;
        assert ([[]] + rest)[1..] == rest;
      } else {
        var parts := [[s[0]] + rest[0]] + rest[1..];
        assert Split(s, Space) == parts;
        assert parts[1..] == rest[1..];
        assert parts[0][0] == s[0];
      }
    }
  }

  /** `.slice(0, 2)` */
  function TakeTwo(s: string): (r: string)
    ensures |r| <= 2
    ensures r == s[..if |s| < 2 then |s| else 2]
  {
    if |s| < 2 then s else s[..2]
  }

  /** `getInitials` */
  function GetInitials(name: NameArg): (r: string)
    ensures name.NotText? || name.s == [] ==> r == "??"
    ensures name.NameText? && name.s != [] ==> r == ToUpper(TakeTwo(WordStarts(name.s, true)))
    ensures name.NameText? && name.s != [] ==> |r| <= 2 && Space !in r
  {
    match name
    case NotText => "??"
    case NameText(s) =>
      if s == [] then "??"
      else
        FirstCharsAreWordStarts(s);
        ToUpper(TakeTwo(FirstChars(Split(s, Space))))
  }

  /** The first character of a word without spaces is its only word start,
      and what follows a space begins afresh. */
  lemma {:induction false} WordStartsOfWord(w: string, rest: string)
    requires w != [] && Space !in w
    ensures WordStarts(w + [Space] + rest, true) == [w[0]] + WordStarts(rest, true)
  {
    assert (w + [Space] + rest)[1..] == w[1..] + [Space] + rest;
    WordStartsInside(w[1..], rest);
  }

  lemma {:induction false} WordStartsInside(w: string, rest: string)
    requires Space !in w
    ensures WordStarts(w + [Space] + rest, false) == WordStarts(rest, true)
    decreases |w|
  {
    if w == [] {
      assert w + [Space] + rest == [Space] + rest;
      assert ([Space] + rest)[1..] == rest;
    } else {
      assert (w + [Space] + rest)[1..] == w[1..] + [Space] + rest;
      WordStartsInside(w[1..], rest);
    }
  }

  /** "ana maria lopez" gives "AM": two words and more give the first
      characters of the first two, upper-cased. */
  lemma FirstTwoWords(w1: string, w2: string, rest: string)
    requires w1 != [] && w2 != [] && Space !in w1 && Space !in w2
    ensures GetInitials(NameText(w1 + [Space] + w2 + rest)) == [UpperChar(w1[0]), UpperChar(w2[0])]
  {
    var s := w1 + [Space] + w2 + rest;
    assert s == w1 + [Space] + (w2 + rest);
    WordStartsOfWord(w1, w2 + rest);
    WordStartsPrefix(w2, rest);
  }

  /** A text whose first character is not a space begins with that word
      start. */
  lemma WordStartsPrefix(w: string, rest: string)
    requires w != [] && w[0] != Space
    ensures WordStarts(w + rest, true) == [w[0]] + WordStarts((w + rest)[1..], false)
  {
  }

  /** A one-word name gives its first character alone. */
  lemma OneWord(w: string)
    requires w != [] && Space !in w
    ensures GetInitials(NameText(w)) == [UpperChar(w[0])]
  {
    WordStartsNone(w[1..]);
  }

  lemma {:induction false} WordStartsNone(w: string)
    requires Space !in w
    ensures WordStarts(w, false) == []
    decreases |w|
  {
    if w != [] {
      assert Space !in w[1..];
      WordStartsNone(w[1..]);
    }
  }

  /** A name made only of spaces is a non-empty string with no word, and
      its initials are empty rather than "??". */
  lemma {:induction false} OnlySpaces(n: nat)
    requires 0 < n
    ensures GetInitials(NameText(seq(n, _ => Space))) == []
  {
    AllSpacesNoStarts(seq(n, _ => Space), true);
  }

  lemma {:induction false} AllSpacesNoStarts(s: string, atStart: bool)
    requires forall i :: 0 <= i < |s| ==> s[i] == Space
    ensures WordStarts(s, atStart) == []
    decreases |s|
  {
    if s != [] {
      AllSpacesNoStarts(s[1..], true);
    }
  }
}
