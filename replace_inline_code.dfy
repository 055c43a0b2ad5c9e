/** Replace inline code with function call: the split/capitalise/join
    expression written inline, and the same expression behind a named
    function. */
module ReplaceInlineCode {
  import opened Js

  /** `word.charAt(0).toUpperCase() + word.slice(1)`; on the empty word both
      parts are empty. */
  function CapWord(word: string): (r: string)
    ensures |r| == |word|
    ensures r != [] ==> r[0] == UpperChar(word[0]) && r[1..] == word[1..]
  {
    if word == [] then [] else [UpperChar(word[0])] + word[1..]
  }

  /** `str.split(' ').map(capitalise).join(' ')`: the same text as one
      left-to-right scan that upper-cases each character after a space or
      at the start (CapitalizeWordsAt states it per character). */
  function CapitalizeWords(str: string): (r: string)
    ensures r == CapFrom(str, true)
  {
    PipelineIsScan(str);
    Join(Map(Split(str, ' '), CapWord), " ")
  }

  /** The inline expression of example2Before, applied to its text. */
  function Example2Before(text: string): (r: string)
    ensures r == Example2After(text)
  {
    var words := Split(text, ' ');
    var capitalized := Map(words, (word: string) => if word == [] then [] else [UpperChar(word[0])] + word[1..]);
    assert capitalized == Map(words, CapWord);
    Join(capitalized, " ")
  }

  function Example2After(text: string): string {
    CapitalizeWords(text)
  }

  // ---------------------------------------------------------------------------
  // A character-level reading of capitalizeWords

  /** Scans the text once: a character is upper-cased when it starts a word
      (`atStart`), and a space starts the next word. */
  function CapFrom(s: string, atStart: bool): string {
    if s == [] then []
    else if s[0] == ' ' then [' '] + CapFrom(s[1..], true)
    else [if atStart then UpperChar(s[0]) else s[0]] + CapFrom(s[1..], false)
  }

  /** The split/map/join pipeline is the scan started at a word boundary;
      the second conjunct, with the first word left as it is, is the scan
      started inside a word. */
  lemma {:induction false} PipelineIsScan(s: string)
    ensures Join(Map(Split(s, ' '), CapWord), " ") == CapFrom(s, true)
    ensures var w := Split(s, ' '); Join([w[0]] + Map(w[1..], CapWord), " ") == CapFrom(s, false)
  {
    if s == [] {
      assert Map([[]], CapWord) == [[]];
      assert Map([[]][1..], CapWord) == [];
    } else {
      PipelineIsScan(s[1..]);
      if s[0] == ' ' {
        ScanSpaceStep(s);
      } else {
        ScanWordStep(s);
      }
    }
  }

  /** A leading space: both scans emit it and restart at a word boundary. */
  lemma ScanSpaceStep(s: string)
    requires s != [] && s[0] == ' '
    requires Join(Map(Split(s[1..], ' '), CapWord), " ") == CapFrom(s[1..], true)
    ensures Join(Map(Split(s, ' '), CapWord), " ") == CapFrom(s, true)
    ensures var w := Split(s, ' '); Join([w[0]] + Map(w[1..], CapWord), " ") == CapFrom(s, false)
  {
    var t := Split(s[1..], ' ');
    assert Split(s, ' ') == [[]] + t;
    MapAppend([[]], t, CapWord);
    assert Map([[]], CapWord) == [[]];
    var m := Map(t, CapWord);
    assert ([[]] + m)[1..] == m;
    assert Join([[]] + m, " ") == " " + Join(m, " ");
    assert ([[]] + t)[1..] == t;
  }

  /** A leading word character: it joins the first word, upper-cased only
      when the scan is at a word boundary. */
  lemma ScanWordStep(s: string)
    requires s != [] && s[0] != ' '
    requires var w := Split(s[1..], ' '); Join([w[0]] + Map(w[1..], CapWord), " ") == CapFrom(s[1..], false)
    ensures Join(Map(Split(s, ' '), CapWord), " ") == CapFrom(s, true)
    ensures var w := Split(s, ' '); Join([w[0]] + Map(w[1..], CapWord), " ") == CapFrom(s, false)
  {
    var t := Split(s[1..], ' ');
    var w := Split(s, ' ');
    assert w == [[s[0]] + t[0]] + t[1..];
    assert w[1..] == t[1..];
    var m := Map(t[1..], CapWord);
    JoinConsAppend([s[0]], t[0], m, " ");
    assert Map(w, CapWord) == [[UpperChar(s[0])] + t[0]] + m by {
      MapAppend([[s[0]] + t[0]], t[1..], CapWord);
      assert Map([[s[0]] + t[0]], CapWord) == [CapWord([s[0]] + t[0])];
      assert ([s[0]] + t[0])[1..] == t[0];
    }
    JoinConsAppend([UpperChar(s[0])], t[0], m, " ");
  }

  lemma {:induction false} CapFromLength(s: string, atStart: bool)
    ensures |CapFrom(s, atStart)| == |s|
  {
    if s != [] {
      CapFromLength(s[1..], true);
      CapFromLength(s[1..], false);
    }
  }

  /** Character i of the result: upper-cased when it starts a word, the input
      character otherwise. So spaces stay where they were, and only the first
      character of each word can change. */
  lemma {:induction false} CapFromAt(s: string, atStart: bool, i: nat)
    requires i < |s|
    ensures |CapFrom(s, atStart)| == |s|
    ensures CapFrom(s, atStart)[i] ==
              if (if i == 0 then atStart else s[i - 1] == ' ') then UpperChar(s[i]) else s[i]
  {
    CapFromLength(s, atStart);
    if i > 0 {
      CapFromAt(s[1..], true, i - 1);
      CapFromAt(s[1..], false, i - 1);
    } else if s[0] == ' ' {
      assert UpperChar(' ') == ' ';
    }
  }

  /** Capitalising twice is capitalising once. */
  lemma {:induction false} CapFromIdempotent(s: string, atStart: bool)
    ensures CapFrom(CapFrom(s, atStart), atStart) == CapFrom(s, atStart)
  {
    if s != [] {
      var r := CapFrom(s, atStart);
      if s[0] == ' ' {
        CapFromIdempotent(s[1..], true);
        assert r[1..] == CapFrom(s[1..], true);
      } else {
        CapFromIdempotent(s[1..], false);
        var c := if atStart then UpperChar(s[0]) else s[0];
        assert r == [c] + CapFrom(s[1..], false);
        assert r[1..] == CapFrom(s[1..], false);
        assert c != ' ';
      }
    }
  }

  /** capitalizeWords keeps the length and every space, upper-cases the
      first character of each word and leaves every other character alone. */
  lemma CapitalizeWordsAt(str: string, i: nat)
    requires i < |str|
    ensures |CapitalizeWords(str)| == |str|
    ensures CapitalizeWords(str)[i] ==
              if i == 0 || str[i - 1] == ' ' then UpperChar(str[i]) else str[i]
    ensures CapitalizeWords(str)[i] == ' ' <==> str[i] == ' '
  {
    PipelineIsScan(str);
    CapFromAt(str, true, i);
  }

  lemma CapitalizeWordsIdempotent(str: string)
    ensures CapitalizeWords(CapitalizeWords(str)) == CapitalizeWords(str)
  {
    PipelineIsScan(str);
    PipelineIsScan(CapFrom(str, true));
    CapFromIdempotent(str, true);
  }

  /** The number of separators in a string. */
  function Count(s: string, c: char): nat {
    if s == [] then 0 else (if s[0] == c then 1 else 0) + Count(s[1..], c)
  }

  /** `split(' ')` gives one more word than there are spaces, and the mapped
      list has as many words; an empty word (from two spaces in a row) stays
      empty. */
  lemma {:induction false} SplitWordCount(s: string)
    ensures |Split(s, ' ')| == Count(s, ' ') + 1
    ensures |Map(Split(s, ' '), CapWord)| == |Split(s, ' ')|
    ensures forall k :: 0 <= k < |Split(s, ' ')| && Split(s, ' ')[k] == [] ==> Map(Split(s, ' '), CapWord)[k] == []
  {
    if s != [] {
      SplitWordCount(s[1..]);
    }
  }

  /** The fixture text. It is passed in rather than written inline so that
      the verifier does not unfold the pipeline on a literal. */
  lemma Example2Fixture(text: string)
    requires text == "hello world"
    ensures Example2After(text) == "Hello World"
  {
    var r := CapitalizeWords(text);
    CapitalizeWordsAt(text, 0);
    forall i | 0 <= i < |text|
      ensures r[i] == if i == 0 || text[i - 1] == ' ' then UpperChar(text[i]) else text[i]
    {
      CapitalizeWordsAt(text, i);
    }
    FixtureChars(text, r);
  }

  /** Character by character, the fixture capitalised. */
  lemma FixtureChars(text: string, r: string)
    requires text == "hello world" && |r| == |text|
    requires forall i {:trigger r[i]} :: 0 <= i < |text| ==> r[i] == if i == 0 || text[i - 1] == ' ' then UpperChar(text[i]) else text[i]
    ensures r == "Hello World"
  {
    assert text[0] == 'h' && text[1] == 'e' && text[2] == 'l' && text[3] == 'l' && text[4] == 'o' && text[5] == ' ';
    assert text[6] == 'w' && text[7] == 'o' && text[8] == 'r' && text[9] == 'l' && text[10] == 'd';
    assert UpperChar('h') == 'H' && UpperChar('w') == 'W';
    assert r[0] == 'H' && r[1] == 'e' && r[2] == 'l' && r[3] == 'l' && r[4] == 'o' && r[5] == ' ';
    assert r[6] == 'W' && r[7] == 'o' && r[8] == 'r' && r[9] == 'l' && r[10] == 'd';
  }
}
