/** `getInitials`, shared by the customer list and the user search:
    `name.split(' ').map(n => n[0]).join('').toUpperCase()`. */
module Initials {
  import opened Text

  /** `s.split(' ')`: the pieces between single space characters, empty pieces included. */
  function SplitOnSpace(s: string): (words: seq<string>)
    ensures |words| >= 1
  {
    if s == [] then [""]
    else if s[0] == ' ' then [""] + SplitOnSpace(s[1..])
    else
      var rest := SplitOnSpace(s[1..]);
      [[s[0]] + rest[0]] + rest[1..]
  }

  /** `.map(n => n[0]).join('')`: an empty piece gives `undefined`, which joins as nothing. */
  function JoinFirsts(words: seq<string>): string {
    if words == [] then ""
    else (if words[0] == "" then "" else [words[0][0]]) + JoinFirsts(words[1..])
  }

  function GetInitials(name: string): string {
    Upper(JoinFirsts(SplitOnSpace(name)))
  }

  /** Reference definition: every non-space character at the start of `s` (when `atStart`)
      or right after a space. */
  function WordStarts(s: string, atStart: bool): string {
    if s == [] then ""
    else if s[0] == ' ' then WordStarts(s[1..], true)
    else (if atStart then [s[0]] else "") + WordStarts(s[1..], false)
  }

  /** The split/map/join pipeline picks exactly the word-starting characters; the pieces after
      the first pick those after a space. */
  lemma {:induction false} JoinFirstsIsWordStarts(s: string)
    ensures JoinFirsts(SplitOnSpace(s)) == WordStarts(s, true)
    ensures JoinFirsts(SplitOnSpace(s)[1..]) == WordStarts(s, false)
  {
    if s == [] {
    } else if s[0] == ' ' {
      JoinFirstsIsWordStarts(s[1..]);
      assert SplitOnSpace(s)[1..] == SplitOnSpace(s[1..]);
    } else {
      JoinFirstsIsWordStarts(s[1..]);
      var rest := SplitOnSpace(s[1..]);
      assert SplitOnSpace(s)[1..] == rest[1..];
    }
  }

  /** The initials are the uppercased first character of each non-empty space-separated word. */
  lemma GetInitialsSpec(name: string)
    ensures GetInitials(name) == Upper(WordStarts(name, true))
  {
    JoinFirstsIsWordStarts(name);
  }

  /** There are never more initials than characters, and a name of spaces has none. */
  lemma {:induction false} WordStartsBound(s: string, atStart: bool)
    ensures |WordStarts(s, atStart)| <= |s|
    ensures (forall i :: 0 <= i < |s| ==> s[i] == ' ') ==> WordStarts(s, atStart) == ""
  {
    if s != [] {
      WordStartsBound(s[1..], true);
      WordStartsBound(s[1..], false);
    }
  }

  /** Inside a word nothing is picked: a run of non-space characters is skipped. */
  lemma {:induction false} SkipWord(word: string, rest: string)
    requires forall i :: 0 <= i < |word| ==> word[i] != ' '
    ensures WordStarts(word + rest, false) == WordStarts(rest, false)
  {
    if word != [] {
      SkipWord(word[1..], rest);
      assert (word + rest)[1..] == word[1..] + rest;
    } else {
      assert word + rest == rest;
    }
  }

  /** A word is its own first letter as a word start and nothing after it. */
  lemma OneWord(word: string, rest: string)
    requires word != []
    requires forall i :: 0 <= i < |word| ==> word[i] != ' '
    ensures WordStarts(word + rest, true) == [word[0]] + WordStarts(rest, false)
  {
    var tail := word[1..];
    assert forall i :: 0 <= i < |tail| ==> tail[i] != ' ' by {
      forall i | 0 <= i < |tail| ensures tail[i] != ' ' {
        assert tail[i] == word[i + 1];
      }
    }
    SkipWord(tail, rest);
    assert (word + rest)[1..] == tail + rest;
  }

  /** A name of two words separated by one space gives the first letter of each, upper-cased. */
  lemma TwoWords(first: string, second: string)
    requires first != [] && second != []
    requires forall i :: 0 <= i < |first| ==> first[i] != ' '
    requires forall i :: 0 <= i < |second| ==> second[i] != ' '
    ensures GetInitials(first + " " + second) == Upper([first[0], second[0]])
  {
    var rest := " " + second;
    GetInitialsSpec(first + rest);
    OneWord(first, rest);
    assert WordStarts(rest, false) == WordStarts(second, true) by {
      assert rest[1..] == second;
    }
    OneWord(second, "");
    assert second + "" == second;
    assert first + " " + second == first + rest;
  }
}
