/** The text cleaner `clean_text` (app.py:63-68): three passes in order,
      1. every run of whitespace becomes one space        (re.sub(r'\s+', ' ', ...)),
      2. every character that is not a word character, whitespace or one of
         `. , ! ? -` is deleted                          (re.sub(r'[^\w\s.,!?-]', '', ...)),
      3. whitespace is stripped from both ends           (str.strip()).
    Python's `\w` and `\s` are Unicode-aware, so the two character classes
    are parameters of the model rather than fixed tables. */
module TextCleaner {
  import opened Strings

  /** The two character classes of Python's `re` module for `str` patterns:
      `isWord` is `\w`, `isSpace` is `\s` (which is also what `str.strip`
      removes). */
  datatype CharClasses = CharClasses(isWord: char -> bool, isSpace: char -> bool)

  /** The one fact about the classes the properties rely on: the plain space is whitespace. */
  predicate SpaceIsWhitespace(cc: CharClasses)
  {
    cc.isSpace(' ')
  }

  /** The literal characters the second pass keeps besides word characters and whitespace. */
  const Punctuation: string := ".,!?-"

  /** The characters the second pass keeps: `[\w\s.,!?-]`. */
  function Kept(cc: CharClasses): char -> bool
  {
    c => cc.isWord(c) || cc.isSpace(c) || c in Punctuation
  }

  /** Characters that are not whitespace. */
  function NotSpace(cc: CharClasses): char -> bool
  {
    c => !cc.isSpace(c)
  }

  /** The characters that survive cleaning as visible text: non-whitespace
      word characters and the kept punctuation. */
  function Essential(cc: CharClasses): char -> bool
  {
    c => !cc.isSpace(c) && (cc.isWord(c) || c in Punctuation)
  }

  /** `str.lstrip()`: drop the leading whitespace. */
  function StripLeft(cc: CharClasses, s: string): (r: string)
    ensures |r| <= |s| && r == s[|s| - |r|..]
    ensures forall i :: 0 <= i < |s| - |r| ==> cc.isSpace(s[i])
    ensures r != [] ==> !cc.isSpace(r[0])
  {
    if s != [] && cc.isSpace(s[0]) then StripLeft(cc, s[1..]) else s
  }

  /** `str.rstrip()`: drop the trailing whitespace. */
  function StripRight(cc: CharClasses, s: string): (r: string)
    ensures |r| <= |s| && r == s[..|r|]
    ensures forall i :: |r| <= i < |s| ==> cc.isSpace(s[i])
    ensures r != [] ==> !cc.isSpace(r[|r| - 1])
  {
    if s != [] && cc.isSpace(s[|s| - 1]) then StripRight(cc, s[..|s| - 1]) else s
  }

  /** `str.strip()`. */
  function Strip(cc: CharClasses, s: string): string
  {
    StripRight(cc, StripLeft(cc, s))
  }

  /** First pass, `re.sub(r'\s+', ' ', s)`: each maximal whitespace run becomes one space. */
  function CollapseWhitespace(cc: CharClasses, s: string): string
    decreases |s|
  {
    if s == [] then []
    else if cc.isSpace(s[0]) then [' '] + CollapseWhitespace(cc, StripLeft(cc, s[1..]))
    else [s[0]] + CollapseWhitespace(cc, s[1..])
  }

  /** Second pass, `re.sub(r'[^\w\s.,!?-]', '', s)`. */
  function RemoveSymbols(cc: CharClasses, s: string): string
  {
    Filter(Kept(cc), s)
  }

  /** `clean_text(text)`. */
  function CleanText(cc: CharClasses, text: string): string
  {
    Strip(cc, RemoveSymbols(cc, CollapseWhitespace(cc, text)))
  }

  /** No whitespace character other than the plain space occurs in `s`. */
  predicate OnlyPlainSpaces(cc: CharClasses, s: string)
  {
    forall i :: 0 <= i < |s| ==> cc.isSpace(s[i]) ==> s[i] == ' '
  }

  // ---------------------------------------------------------------------
  // Properties of the passes

  /** No two neighbouring characters of `s` are both whitespace. */
  predicate NoAdjacentWhitespace(cc: CharClasses, s: string)
  {
    forall i :: 0 <= i < |s| - 1 ==> !(cc.isSpace(s[i]) && cc.isSpace(s[i + 1]))
  }

  /** After the first pass every whitespace run is one plain space: no other
      whitespace character is left, and no two whitespace characters touch. */
  lemma {:induction false} CollapseShape(cc: CharClasses, s: string)
    ensures |CollapseWhitespace(cc, s)| <= |s|
    ensures OnlyPlainSpaces(cc, CollapseWhitespace(cc, s))
    ensures NoAdjacentWhitespace(cc, CollapseWhitespace(cc, s))
    decreases |s|
  {
    if s != [] {
      var rest := if cc.isSpace(s[0]) then StripLeft(cc, s[1..]) else s[1..];
      CollapseShape(cc, rest);
      if cc.isSpace(s[0]) && rest != [] {
        CollapseKeepsFirst(cc, rest);
      }
      ConsKeepsShape(cc, if cc.isSpace(s[0]) then ' ' else s[0], CollapseWhitespace(cc, rest));
    }
  }

  /** Putting a plain space or a non-whitespace character in front of a
      collapsed text keeps it collapsed, unless a space meets a space. */
  lemma ConsKeepsShape(cc: CharClasses, head: char, tail: string)
    requires head == ' ' || !cc.isSpace(head)
    requires OnlyPlainSpaces(cc, tail) && NoAdjacentWhitespace(cc, tail)
    requires cc.isSpace(head) && tail != [] ==> !cc.isSpace(tail[0])
    ensures OnlyPlainSpaces(cc, [head] + tail)
    ensures NoAdjacentWhitespace(cc, [head] + tail)
  {
    var r := [head] + tail;
    forall i | 1 <= i < |r| ensures r[i] == tail[i - 1] { }
  }

  /** A text that starts with a non-whitespace character keeps it first. */
  lemma CollapseKeepsFirst(cc: CharClasses, s: string)
    requires s != [] && !cc.isSpace(s[0])
    ensures CollapseWhitespace(cc, s) != [] && CollapseWhitespace(cc, s)[0] == s[0]
  {
  }

  /** Dropping leading whitespace keeps whatever passes a test that rejects whitespace. */
  lemma {:induction false} FilterOfStripLeft(cc: CharClasses, p: char -> bool, s: string)
    requires forall c :: cc.isSpace(c) ==> !p(c)
    ensures Filter(p, StripLeft(cc, s)) == Filter(p, s)
  {
    if s != [] && cc.isSpace(s[0]) {
      FilterOfStripLeft(cc, p, s[1..]);
    }
  }

  /** Collapsing whitespace keeps, in order, every character that passes a test
      rejecting whitespace (`NotSpace` keeps all non-whitespace characters),
      given that the space it inserts is whitespace. */
  lemma {:induction false} CollapseKeepsNonSpace(cc: CharClasses, p: char -> bool, s: string)
    requires SpaceIsWhitespace(cc)
    requires forall c :: cc.isSpace(c) ==> !p(c)
    ensures Filter(p, CollapseWhitespace(cc, s)) == Filter(p, s)
    decreases |s|
  {
    if s != [] {
      var r := CollapseWhitespace(cc, s);
      if cc.isSpace(s[0]) {
        var rest := StripLeft(cc, s[1..]);
        assert r == [' '] + CollapseWhitespace(cc, rest);
        assert r[1..] == CollapseWhitespace(cc, rest);
        CollapseKeepsNonSpace(cc, p, rest);
        FilterOfStripLeft(cc, p, s[1..]);
      } else {
        assert r[1..] == CollapseWhitespace(cc, s[1..]);
        CollapseKeepsNonSpace(cc, p, s[1..]);
      }
    }
  }

  /** The non-whitespace characters left by the second pass are the essential ones. */
  lemma {:induction false} NotSpaceOfRemoveSymbols(cc: CharClasses, s: string)
    ensures Filter(NotSpace(cc), RemoveSymbols(cc, s)) == Filter(Essential(cc), s)
  {
    if s != [] {
      NotSpaceOfRemoveSymbols(cc, s[1..]);
      var head := if Kept(cc)(s[0]) then [s[0]] else [];
      assert RemoveSymbols(cc, s) == head + RemoveSymbols(cc, s[1..]);
      FilterConcat(NotSpace(cc), head, RemoveSymbols(cc, s[1..]));
    }
  }

  /** Deletion never introduces a whitespace character. */
  lemma {:induction false} OnlyPlainSpacesOfFilter(cc: CharClasses, p: char -> bool, s: string)
    requires OnlyPlainSpaces(cc, s)
    ensures OnlyPlainSpaces(cc, Filter(p, s))
  {
    if s != [] {
      OnlyPlainSpacesOfFilter(cc, p, s[1..]);
      var head := if p(s[0]) then [s[0]] else [];
      var r := Filter(p, s);
      assert r == head + Filter(p, s[1..]);
      forall i | 0 <= i < |r| && cc.isSpace(r[i]) ensures r[i] == ' ' {
        if i >= |head| {
          assert r[i] == Filter(p, s[1..])[i - |head|];
        }
      }
    }
  }

  /** Stripping the front removes only whitespace. */
  lemma {:induction false} NotSpaceOfStripLeft(cc: CharClasses, s: string)
    ensures Filter(NotSpace(cc), StripLeft(cc, s)) == Filter(NotSpace(cc), s)
  {
    if s != [] && cc.isSpace(s[0]) {
      NotSpaceOfStripLeft(cc, s[1..]);
    }
  }

  /** Stripping the back removes only whitespace. */
  lemma {:induction false} NotSpaceOfStripRight(cc: CharClasses, s: string)
    ensures Filter(NotSpace(cc), StripRight(cc, s)) == Filter(NotSpace(cc), s)
  {
    if s != [] && cc.isSpace(s[|s| - 1]) {
      var init := s[..|s| - 1];
      NotSpaceOfStripRight(cc, init);
      assert s == init + [s[|s| - 1]];
      FilterConcat(NotSpace(cc), init, [s[|s| - 1]]);
    }
  }

  // ---------------------------------------------------------------------
  // What clean_text promises (app.py:65-68)

  /** The output is never longer than the input and holds no whitespace but the plain space. */
  lemma {:induction false} CleanTextShape(cc: CharClasses, text: string)
    ensures |CleanText(cc, text)| <= |text|
    ensures OnlyPlainSpaces(cc, CleanText(cc, text))
  {
    var a := CollapseWhitespace(cc, text);
    CollapseShape(cc, text);
    var b := RemoveSymbols(cc, a);
    OnlyPlainSpacesOfFilter(cc, Kept(cc), a);
    var l := StripLeft(cc, b);
    var r := StripRight(cc, l);
    forall i | 0 <= i < |r| && cc.isSpace(r[i]) ensures r[i] == ' ' {
      assert r[i] == l[i] == b[|b| - |l| + i];
    }
  }

  /** The output neither starts nor ends with a space. */
  lemma CleanTextTrimmed(cc: CharClasses, text: string)
    requires SpaceIsWhitespace(cc)
    ensures var r := CleanText(cc, text); r != [] ==> r[0] != ' ' && r[|r| - 1] != ' '
  {
    StripEnds(cc, RemoveSymbols(cc, CollapseWhitespace(cc, text)));
  }

  /** A stripped text neither starts nor ends with whitespace. */
  lemma StripEnds(cc: CharClasses, s: string)
    ensures var r := Strip(cc, s); r != [] ==> !cc.isSpace(r[0]) && !cc.isSpace(r[|r| - 1])
  {
    var l := StripLeft(cc, s);
    var r := StripRight(cc, l);
    if r != [] {
      assert r[0] == l[0];
    }
  }

  /** The visible characters of the output are exactly the input's non-whitespace
      word characters and `. , ! ? -`, in their original order. */
  lemma {:induction false} CleanTextKeepsEssential(cc: CharClasses, text: string)
    requires SpaceIsWhitespace(cc)
    ensures Filter(NotSpace(cc), CleanText(cc, text)) == Filter(Essential(cc), text)
  {
    var a := CollapseWhitespace(cc, text);
    var b := RemoveSymbols(cc, a);
    NotSpaceOfStripLeft(cc, b);
    NotSpaceOfStripRight(cc, StripLeft(cc, b));
    NotSpaceOfRemoveSymbols(cc, a);
    CollapseKeepsNonSpace(cc, Essential(cc), text);
  }

  /** Cleaning is not idempotent: a symbol between two spaces is deleted after
      the spaces were collapsed, so a double space survives the first call and
      is collapsed only by a second one. */
  lemma CleanTextNotIdempotent(cc: CharClasses)
    requires SpaceIsWhitespace(cc)
    requires cc.isWord('a') && cc.isWord('b') && !cc.isWord('@')
    requires !cc.isSpace('a') && !cc.isSpace('b') && !cc.isSpace('@')
    ensures CleanText(cc, "a @ b") == "a  b"
    ensures CleanText(cc, "a  b") == "a b"
    ensures CleanText(cc, CleanText(cc, "a @ b")) != CleanText(cc, "a @ b")
  {
    FirstCallKeepsDoubleSpace(cc);
    SecondCallCollapsesIt(cc);
  }

  /** The first call on "a @ b", pass by pass. */
  lemma FirstCallKeepsDoubleSpace(cc: CharClasses)
    requires SpaceIsWhitespace(cc)
    requires cc.isWord('a') && cc.isWord('b') && !cc.isWord('@')
    requires !cc.isSpace('a') && !cc.isSpace('b') && !cc.isSpace('@')
    ensures CleanText(cc, "a @ b") == "a  b"
  {
    var s: string := ['a'] + ([' '] + (['@'] + ([' '] + ['b'])));
    var d: string := ['a'] + ([' '] + ([' '] + ['b']));
    assert CollapseWhitespace(cc, s) == s by { CollapseKeepsSingleSpaces(cc, 'a', '@', 'b'); }
    assert RemoveSymbols(cc, s) == d by {
      assert '@' !in Punctuation;
      RemoveSymbolsLeavesDoubleSpace(cc, 'a', '@', 'b');
    }
    assert Strip(cc, d) == d by { StripKeeps(cc, d); }
    FiveAsConcat('a', '@', 'b');
    FourAsConcat('a', 'b');
  }

  /** The second call on "a  b", pass by pass. */
  lemma SecondCallCollapsesIt(cc: CharClasses)
    requires SpaceIsWhitespace(cc)
    requires cc.isWord('a') && cc.isWord('b')
    requires !cc.isSpace('a') && !cc.isSpace('b')
    ensures CleanText(cc, "a  b") == "a b"
  {
    var d: string := ['a'] + ([' '] + ([' '] + ['b']));
    var c: string := ['a'] + ([' '] + ['b']);
    assert CollapseWhitespace(cc, d) == c by { CollapseMergesDoubleSpace(cc, 'a', 'b'); }
    assert RemoveSymbols(cc, c) == c by { RemoveSymbolsKeepsPlainText(cc, 'a', 'b'); }
    assert Strip(cc, c) == c by { StripKeeps(cc, c); }
    FourAsConcat('a', 'b');
    ThreeAsConcat('a', 'b');
  }

  lemma FiveAsConcat(x: char, y: char, z: char)
    ensures [x, ' ', y, ' ', z] == [x] + ([' '] + ([y] + ([' '] + [z])))
  {
  }

  lemma FourAsConcat(x: char, z: char)
    ensures [x, ' ', ' ', z] == [x] + ([' '] + ([' '] + [z]))
  {
  }

  lemma ThreeAsConcat(x: char, z: char)
    ensures [x, ' ', z] == [x] + ([' '] + [z])
  {
  }

  /** Single spaces between non-whitespace characters are left alone by the first pass. */
  lemma CollapseKeepsSingleSpaces(cc: CharClasses, x: char, y: char, z: char)
    requires SpaceIsWhitespace(cc)
    requires !cc.isSpace(x) && !cc.isSpace(y) && !cc.isSpace(z)
    ensures var s := [x] + ([' '] + ([y] + ([' '] + [z]))); CollapseWhitespace(cc, s) == s
  {
    var tz: string := [z];
    var sz := [' '] + tz;
    var ysz := [y] + sz;
    var sysz := [' '] + ysz;
    assert CollapseWhitespace(cc, tz) == tz by { CollapseCons(cc, z, []); }
    assert StripLeft(cc, tz) == tz by { StripLeftCons(cc, z, []); }
    assert CollapseWhitespace(cc, sz) == sz by { CollapseCons(cc, ' ', tz); }
    assert CollapseWhitespace(cc, ysz) == ysz by { CollapseCons(cc, y, sz); }
    assert StripLeft(cc, ysz) == ysz by { StripLeftCons(cc, y, sz); }
    assert CollapseWhitespace(cc, sysz) == sysz by { CollapseCons(cc, ' ', ysz); }
    CollapseCons(cc, x, sysz);
  }

  /** The second pass deletes a symbol and keeps the spaces around it. */
  lemma RemoveSymbolsLeavesDoubleSpace(cc: CharClasses, x: char, y: char, z: char)
    requires SpaceIsWhitespace(cc)
    requires cc.isWord(x) && cc.isWord(z) && !Kept(cc)(y)
    ensures RemoveSymbols(cc, [x] + ([' '] + ([y] + ([' '] + [z])))) == [x] + ([' '] + ([' '] + [z]))
  {
    var tz: string := [z];
    var sz := [' '] + tz;
    var ysz := [y] + sz;
    var sysz := [' '] + ysz;
    assert RemoveSymbols(cc, tz) == tz by { RemoveSymbolsCons(cc, z, []); }
    assert RemoveSymbols(cc, sz) == sz by { RemoveSymbolsCons(cc, ' ', tz); }
    assert RemoveSymbols(cc, ysz) == sz by { RemoveSymbolsCons(cc, y, sz); }
    assert RemoveSymbols(cc, sysz) == [' '] + sz by { RemoveSymbolsCons(cc, ' ', ysz); }
    RemoveSymbolsCons(cc, x, sysz);
  }

  /** The first pass merges two spaces into one. */
  lemma CollapseMergesDoubleSpace(cc: CharClasses, x: char, z: char)
    requires SpaceIsWhitespace(cc)
    requires !cc.isSpace(x) && !cc.isSpace(z)
    ensures CollapseWhitespace(cc, [x] + ([' '] + ([' '] + [z]))) == [x] + ([' '] + [z])
  {
    var tz: string := [z];
    var sz := [' '] + tz;
    var ssz := [' '] + sz;
    assert CollapseWhitespace(cc, tz) == tz by { CollapseCons(cc, z, []); }
    assert StripLeft(cc, tz) == tz by { StripLeftCons(cc, z, []); }
    assert StripLeft(cc, sz) == tz by { StripLeftCons(cc, ' ', tz); }
    assert CollapseWhitespace(cc, ssz) == sz by { CollapseCons(cc, ' ', sz); }
    CollapseCons(cc, x, ssz);
  }

  /** The second pass keeps word characters and spaces. */
  lemma RemoveSymbolsKeepsPlainText(cc: CharClasses, x: char, z: char)
    requires SpaceIsWhitespace(cc)
    requires cc.isWord(x) && cc.isWord(z)
    ensures RemoveSymbols(cc, [x] + ([' '] + [z])) == [x] + ([' '] + [z])
  {
    var tz: string := [z];
    var sz := [' '] + tz;
    assert RemoveSymbols(cc, tz) == tz by { RemoveSymbolsCons(cc, z, []); }
    assert RemoveSymbols(cc, sz) == sz by { RemoveSymbolsCons(cc, ' ', tz); }
    RemoveSymbolsCons(cc, x, sz);
  }

  /** One step of the whitespace collapse. */
  lemma CollapseCons(cc: CharClasses, c: char, t: string)
    ensures CollapseWhitespace(cc, [c] + t) ==
            if cc.isSpace(c) then [' '] + CollapseWhitespace(cc, StripLeft(cc, t)) else [c] + CollapseWhitespace(cc, t)
  {
    assert ([c] + t)[0] == c && ([c] + t)[1..] == t;
  }

  /** One step of the left strip. */
  lemma StripLeftCons(cc: CharClasses, c: char, t: string)
    ensures StripLeft(cc, [c] + t) == if cc.isSpace(c) then StripLeft(cc, t) else [c] + t
  {
    assert ([c] + t)[0] == c && ([c] + t)[1..] == t;
  }

  /** One step of the symbol removal. */
  lemma RemoveSymbolsCons(cc: CharClasses, c: char, t: string)
    ensures RemoveSymbols(cc, [c] + t) == (if Kept(cc)(c) then [c] else []) + RemoveSymbols(cc, t)
  {
    assert ([c] + t)[0] == c && ([c] + t)[1..] == t;
  }

  /** Text that starts and ends with a non-whitespace character is not stripped. */
  lemma StripKeeps(cc: CharClasses, t: string)
    requires t != [] && !cc.isSpace(t[0]) && !cc.isSpace(t[|t| - 1])
    ensures Strip(cc, t) == t
  {
  }
}
