/**
 * The avatar initials of a person's display name
 * (`name.split(' ').map(n => n[0]).join('').toUpperCase()`), shared by the
 * person card, the timeline, the media gallery and the index page.
 */
module Initials {
  import opened Strings

  /** `n => n[0]`: the first character of a piece. An empty piece gives
      `undefined`, which `join` renders as nothing. */
  function FirstChar(piece: string): string
  {
    if piece == "" then "" else [piece[0]]
  }

  function FirstChars(pieces: seq<string>): seq<string>
  {
    seq(|pieces|, i requires 0 <= i < |pieces| => FirstChar(pieces[i]))
  }

  /** Reference definition: the characters of `s` that begin a word, that
      is, a non-space character at the start or right after a space.
      `afterSpace` says whether the character before `s` was a space (or
      there was none). */
  function WordStarts(s: string, afterSpace: bool): string
  {
    if s == [] then ""
    else (if afterSpace && s[0] != ' ' then [s[0]] else "") + WordStarts(s[1..], s[0] == ' ')
  }

  /** The initials are the upper-cased word-starting characters of the name. */
  function GetInitials(name: string): (r: string)
    ensures r == Upper(WordStarts(name, true))
  {
    var pieces := Split(name, ' ');
    PiecesStartWords(name);
    Upper(Join(FirstChars(pieces), ""))
  }

  /** `join('')` of a list with a first element is that element followed by
      the join of the rest. */
  lemma JoinEmptyCons(a: string, rest: seq<string>)
    ensures Join([a] + rest, "") == a + Join(rest, "")
  {
    if rest != [] {
      assert ([a] + rest)[1..] == rest;
    } else {
      assert [a] + rest == [a];
    }
  }

  lemma FirstCharsCons(a: string, rest: seq<string>)
    ensures FirstChars([a] + rest) == [FirstChar(a)] + FirstChars(rest)
  {
  }

  /** The first characters of the pieces of `split(' ')`, joined, are the
      word starts; those of the pieces after the first are the word starts
      once the first character is known not to follow a space. */
  lemma {:induction false} PiecesStartWords(t: string)
    ensures Join(FirstChars(Split(t, ' ')), "") == WordStarts(t, true)
    ensures Join(FirstChars(Split(t, ' ')[1..]), "") == WordStarts(t, false)
  {
    if t == [] {
      assert FirstChars([""]) == [""];
    } else {
      var rest := Split(t[1..], ' ');
      PiecesStartWords(t[1..]);
      if t[0] == ' ' {
        assert Split(t, ' ') == [""] + rest;
        assert Split(t, ' ')[1..] == rest;
        FirstCharsCons("", rest);
        JoinEmptyCons("", FirstChars(rest));
        assert "" + Join(FirstChars(rest), "") == Join(FirstChars(rest), "");
      } else {
        assert rest == [rest[0]] + rest[1..];
        assert Split(t, ' ') == [[t[0]] + rest[0]] + rest[1..];
        assert Split(t, ' ')[1..] == rest[1..];
        FirstCharsCons([t[0]] + rest[0], rest[1..]);
        assert FirstChar([t[0]] + rest[0]) == [t[0]];
        JoinEmptyCons([t[0]], FirstChars(rest[1..]));
        assert Split(t[1..], ' ')[1..] == rest[1..];
      }
    }
  }

  /** Word starts never include a space, and there is at most one per
      space-separated piece. */
  lemma {:induction false} WordStartsShape(s: string, afterSpace: bool)
    ensures ' ' !in WordStarts(s, afterSpace)
    ensures |WordStarts(s, afterSpace)| <= Count(s, ' ') + (if afterSpace then 1 else 0)
  {
    if s != [] {
      WordStartsShape(s[1..], s[0] == ' ');
    }
  }

  /** A name with no space and at least one character starts exactly one word. */
  lemma {:induction false} SingleWordStarts(s: string, afterSpace: bool)
    requires ' ' !in s
    ensures WordStarts(s, afterSpace) == if afterSpace && s != [] then [s[0]] else ""
  {
    if s != [] {
      SingleWordStarts(s[1..], false);
    }
  }

  /** What the initials look like: no spaces, at most one letter per
      space-separated piece, nothing for an empty name, and a single
      upper-cased character for a one-word name. */
  lemma InitialsShape(name: string)
    ensures ' ' !in GetInitials(name)
    ensures |GetInitials(name)| <= Count(name, ' ') + 1
    ensures name == "" ==> GetInitials(name) == ""
    ensures ' ' !in name && name != "" ==> GetInitials(name) == [UpperChar(name[0])]
  {
    var w := WordStarts(name, true);
    WordStartsShape(name, true);
    assert forall i :: 0 <= i < |w| ==> UpperChar(w[i]) != ' ';
    if ' ' !in name {
      SingleWordStarts(name, true);
    }
  }

  /** The word starts of two consecutive parts: those of the first, then
      those of the second, told whether the first ended with a space. */
  lemma {:induction false} WordStartsConcat(a: string, b: string, afterSpace: bool)
    ensures WordStarts(a + b, afterSpace) ==
      WordStarts(a, afterSpace) + WordStarts(b, if a == [] then afterSpace else a[|a| - 1] == ' ')
  {
    if a == [] {
      assert a + b == b;
    } else {
      var head: string := if afterSpace && a[0] != ' ' then [a[0]] else "";
      var ends := a[|a| - 1] == ' ';
      WordStartsConcat(a[1..], b, a[0] == ' ');
      assert (a + b)[0] == a[0];
      assert (a + b)[1..] == a[1..] + b;
      assert WordStarts(a + b, afterSpace) == head + WordStarts(a[1..] + b, a[0] == ' ');
      assert (if a[1..] == [] then a[0] == ' ' else a[1..][|a[1..]| - 1] == ' ') == ends;
      assert WordStarts(a, afterSpace) == head + WordStarts(a[1..], a[0] == ' ');
    }
  }

  /** A space followed by one word starts exactly that word. */
  lemma SpaceThenWord(word: string)
    requires word != [] && ' ' !in word
    ensures WordStarts(" " + word, false) == [word[0]]
  {
    WordStartsConcat(" ", word, false);
    assert WordStarts(" ", false) == "";
    SingleWordStarts(word, true);
  }

  /** Two words separated by one space start exactly two words. */
  lemma TwoWordStarts(first: string, last: string)
    requires first != [] && last != [] && ' ' !in first && ' ' !in last
    ensures WordStarts(first + (" " + last), true) == [first[0], last[0]]
  {
    WordStartsConcat(first, " " + last, true);
    assert first[|first| - 1] != ' ';
    SingleWordStarts(first, true);
    SpaceThenWord(last);
  }

  /** A two-word name gives the upper-cased first letters of both words. */
  lemma TwoWordInitials(first: string, last: string)
    requires first != [] && last != [] && ' ' !in first && ' ' !in last
    ensures GetInitials(first + " " + last) == [UpperChar(first[0]), UpperChar(last[0])]
  {
    assert first + " " + last == first + (" " + last);
    TwoWordStarts(first, last);
  }

  /** The initials of the first person of the sample family. */
  lemma SampleInitials()
    ensures GetInitials("Marie Dubois") == "MD"
  {
    TwoWordInitials("Marie", "Dubois");
    assert "Marie Dubois" == "Marie" + " " + "Dubois";
  }
}
