/** The normative derivation of `dedupe_key`, up to the final hash. */
module DedupeKey {
  import Schema

  /** Python's character classes for `str.lower`, `\w` and `\s`. */
  datatype Alphabet = Alphabet(lower: char -> char, word: char -> bool, space: char -> bool)

  ghost predicate Sensible(a: Alphabet) {
    && (forall c :: !(a.word(c) && a.space(c)))
    && (forall c :: a.lower(a.lower(c)) == a.lower(c))
    && a.space(' ') && a.lower(' ') == ' '
    && !a.word('|') && !a.space('|')
  }

  function Lower(a: Alphabet, s: string): string {
    seq(|s|, i requires 0 <= i < |s| => a.lower(s[i]))
  }

  /** `re.sub(r"[^\w\s]", "", s)`. */
  function Keep(a: Alphabet, s: string): string {
    if s == "" then ""
    else (if a.word(s[0]) || a.space(s[0]) then [s[0]] else "") + Keep(a, s[1..])
  }

  /** `s.lstrip()`. */
  function SkipSpaces(a: Alphabet, s: string): (r: string)
    ensures |r| <= |s|
    ensures r != "" ==> !a.space(r[0])
  {
    if s != "" && a.space(s[0]) then SkipSpaces(a, s[1..]) else s
  }

  /** `re.sub(r"\s+", " ", s)`. */
  function Collapse(a: Alphabet, s: string): string
    decreases |s|
  {
    if s == "" then ""
    else if a.space(s[0]) then " " + Collapse(a, SkipSpaces(a, s[1..]))
    else [s[0]] + Collapse(a, s[1..])
  }

  /** `s.rstrip()`. */
  function TrimEnd(a: Alphabet, s: string): string {
    if s == "" then ""
    else
      var rest := TrimEnd(a, s[1..]);
      if rest == "" && a.space(s[0]) then "" else [s[0]] + rest
  }

  function Strip(a: Alphabet, s: string): string {
    TrimEnd(a, SkipSpaces(a, s))
  }

  function Normalize(a: Alphabet, content: string): string {
    Strip(a, Collapse(a, Keep(a, Lower(a, content))))
  }

  /** The string that is hashed: `f"{normalized}|{source_ref}|{source}"`. */
  function Basis(a: Alphabet, content: string, sourceRef: string, source: string): string {
    Normalize(a, content) + "|" + sourceRef + "|" + source
  }

  /** Independent reading of the derivation: the words of a text, split at whitespace. */
  function Words(a: Alphabet, s: string): (ws: seq<string>)
    ensures s != "" && !a.space(s[0]) ==> ws != []
    ensures forall i :: 0 <= i < |ws| ==> ws[i] != ""
  {
    if s == "" then []
    else
      var rest := Words(a, s[1..]);
      if a.space(s[0]) then rest
      else if s[1..] == "" || a.space(s[1]) then [[s[0]]] + rest
      else [[s[0]] + rest[0]] + rest[1..]
  }

  function Join(ws: seq<string>): string {
    if ws == [] then "" else ws[0] + (if |ws| == 1 then "" else " " + Join(ws[1..]))
  }

  /** The words of the lower-cased content with its punctuation deleted. */
  function KeyWords(a: Alphabet, content: string): seq<string> {
    Words(a, Keep(a, Lower(a, content)))
  }

  predicate IsWord(a: Alphabet, w: string) {
    w != "" && forall c :: c in w ==> a.word(c) && a.lower(c) == c
  }

  lemma {:induction false} SkipKeepsWords(a: Alphabet, s: string)
    ensures Words(a, SkipSpaces(a, s)) == Words(a, s)
  {
    if s == "" {
    } else if a.space(s[0]) {
      SkipKeepsWords(a, s[1..]);
    }
  }

  lemma {:induction false} CollapseIsJoin(a: Alphabet, s: string)
    requires Sensible(a)
    requires s == "" || !a.space(s[0])
    ensures TrimEnd(a, Collapse(a, s)) == Join(Words(a, s))
    ensures s != "" ==> Collapse(a, s) != "" && Collapse(a, s)[0] == s[0]
    decreases |s|
  {
    if s == "" {
    } else {
      var t := s[1..];
      assert Collapse(a, s)[1..] == Collapse(a, t);
      if t != "" && a.space(t[0]) {
        var u := SkipSpaces(a, t[1..]);
        CollapseIsJoin(a, u);
        SkipKeepsWords(a, t[1..]);
        assert Collapse(a, t)[1..] == Collapse(a, u);
        var ws := Words(a, u);
        assert Words(a, s) == [[s[0]]] + ws;
        assert Words(a, s)[1..] == ws;
        assert ws != [] ==> ws[0] != "" && Join(ws) != "";
      } else if t != "" {
        CollapseIsJoin(a, t);
        var ws := Words(a, t);
        assert Words(a, s)[1..] == ws[1..];
        assert [s[0]] + Join(ws) == Join(Words(a, s));
      }
    }
  }

  /** The regular-expression pipeline computes exactly the words joined by single spaces. */
  lemma NormalizeIsJoinedWords(a: Alphabet, content: string)
    requires Sensible(a)
    ensures Normalize(a, content) == Join(KeyWords(a, content))
  {
    var s := Keep(a, Lower(a, content));
    if s == "" || !a.space(s[0]) {
      CollapseIsJoin(a, s);
      assert SkipSpaces(a, Collapse(a, s)) == Collapse(a, s);
    } else {
      var t := SkipSpaces(a, s[1..]);
      CollapseIsJoin(a, t);
      SkipKeepsWords(a, s[1..]);
      var c := Collapse(a, s);
      assert c[0] == ' ' && c[1..] == Collapse(a, t);
      assert SkipSpaces(a, c) == SkipSpaces(a, Collapse(a, t)) == Collapse(a, t);
    }
  }

  lemma {:induction false} KeptWords(a: Alphabet, s: string)
    requires Sensible(a) && forall c :: c in s ==> (a.word(c) || a.space(c)) && a.lower(c) == c
    ensures forall i :: 0 <= i < |Words(a, s)| ==> IsWord(a, Words(a, s)[i])
  {
    if s == "" {
    } else {
      KeptWords(a, s[1..]);
    }
  }

  lemma {:induction false} KeepKeeps(a: Alphabet, s: string)
    ensures forall c :: c in Keep(a, s) ==> (a.word(c) || a.space(c)) && c in s
  {
    if s == "" {
    } else {
      KeepKeeps(a, s[1..]);
    }
  }

  lemma KeyWordsAreWords(a: Alphabet, content: string)
    requires Sensible(a)
    ensures forall i :: 0 <= i < |KeyWords(a, content)| ==> IsWord(a, KeyWords(a, content)[i])
  {
    KeepKeeps(a, Lower(a, content));
    KeptWords(a, Keep(a, Lower(a, content)));
  }

  /** Splitting joined words gives the words back. */
  lemma {:induction false} WordsOfJoin(a: Alphabet, ws: seq<string>)
    requires Sensible(a) && forall i :: 0 <= i < |ws| ==> IsWord(a, ws[i])
    ensures Words(a, Join(ws)) == ws
  {
    if ws == [] {
    } else {
      var rest := if |ws| == 1 then "" else " " + Join(ws[1..]);
      WordsOfJoin(a, ws[1..]);
      WordThen(a, ws[0], rest);
      assert |ws| > 1 ==> rest[1..] == Join(ws[1..]);
      assert Words(a, rest) == ws[1..];
      assert [ws[0]] + ws[1..] == ws;
    }
  }

  lemma {:induction false} JoinedCharacters(a: Alphabet, ws: seq<string>)
    requires Sensible(a) && forall i :: 0 <= i < |ws| ==> IsWord(a, ws[i])
    ensures forall c :: c in Join(ws) ==> (a.word(c) || c == ' ') && a.lower(c) == c
  {
    if ws == [] {
    } else {
      JoinedCharacters(a, ws[1..]);
    }
  }

  lemma {:induction false} WordThen(a: Alphabet, w: string, rest: string)
    requires Sensible(a) && IsWord(a, w) && (rest == "" || a.space(rest[0]))
    ensures Words(a, w + rest) == [w] + Words(a, rest)
  {
    assert (w + rest)[1..] == w[1..] + rest;
    if |w| > 1 {
      WordThen(a, w[1..], rest);
      assert [w[0]] + w[1..] == w;
    } else {
      assert w[1..] + rest == rest && [w[0]] == w;
      assert rest != "" ==> (w + rest)[1] == rest[0];
    }
  }

  lemma {:induction false} KeepAll(a: Alphabet, s: string)
    requires forall c :: c in s ==> (a.word(c) || a.space(c)) && a.lower(c) == c
    ensures Keep(a, Lower(a, s)) == s
  {
    assert Lower(a, s) == s;
    if s == "" {
    } else {
      KeepAll(a, s[1..]);
      assert Lower(a, s[1..]) == s[1..];
    }
  }

  /** Normalising twice changes nothing. */
  lemma NormalizeIsIdempotent(a: Alphabet, content: string)
    requires Sensible(a)
    ensures Normalize(a, Normalize(a, content)) == Normalize(a, content)
  {
    var ws := KeyWords(a, content);
    NormalizeIsJoinedWords(a, content);
    KeyWordsAreWords(a, content);
    JoinedCharacters(a, ws);
    WordsOfJoin(a, ws);
    KeepAll(a, Join(ws));
    NormalizeIsJoinedWords(a, Join(ws));
  }

  /** Two contents normalise alike exactly when they have the same words. */
  lemma NormalizeEqualIffSameWords(a: Alphabet, c: string, d: string)
    requires Sensible(a)
    ensures Normalize(a, c) == Normalize(a, d) <==> KeyWords(a, c) == KeyWords(a, d)
  {
    NormalizeIsJoinedWords(a, c);
    NormalizeIsJoinedWords(a, d);
    KeyWordsAreWords(a, c);
    KeyWordsAreWords(a, d);
    WordsOfJoin(a, KeyWords(a, c));
    WordsOfJoin(a, KeyWords(a, d));
  }

  /** Deleting punctuation works character by character: it keeps word characters and white space. */
  lemma {:induction false} KeepIsFilter(a: Alphabet, s: string, t: string, c: char)
    ensures Keep(a, s + [c] + t) == Keep(a, s) + (if a.word(c) || a.space(c) then [c] else "") + Keep(a, t)
    ensures Keep(a, "") == ""
  {
    if s == "" {
      assert ([c] + t)[1..] == t && "" + [c] + t == [c] + t;
    } else {
      KeepIsFilter(a, s[1..], t, c);
      assert (s + [c] + t)[1..] == s[1..] + [c] + t;
    }
  }

  /** What is hashed: the words joined by single spaces, the reference and the source, between bars. */
  lemma BasisReads(a: Alphabet, content: string, ref: string, source: string)
    requires Sensible(a)
    ensures var words := Join(KeyWords(a, content));
      var basis := Basis(a, content, ref, source);
      && |basis| == |words| + |ref| + |source| + 2
      && basis[..|words| + 1] == words + "|"
      && basis[|words| + 1..|basis| - |source|] == ref + "|" && basis[|basis| - |source|..] == source
  {
    NormalizeIsJoinedWords(a, content);
  }

  lemma SplitAtFirstBar(x: string, xs: string, y: string, ys: string)
    requires '|' !in x && '|' !in y && x + "|" + xs == y + "|" + ys
    ensures x == y && xs == ys
  {
    var s := x + "|" + xs;
    assert s[|x|] == '|' && s[|y|] == '|';
    assert s[..|x|] == x && s[..|y|] == y;
    assert s[|x| + 1..] == xs && s[|y| + 1..] == ys;
  }

  lemma SplitAtLastBar(x: string, xs: string, y: string, ys: string)
    requires '|' !in xs && '|' !in ys && x + "|" + xs == y + "|" + ys
    ensures x == y && xs == ys
  {
    var s := x + "|" + xs;
    assert s[|x|] == '|' && s[|y|] == '|';
    assert s[..|x|] == x && s[..|y|] == y;
    assert s[|x| + 1..] == xs && s[|y| + 1..] == ys;
  }

  lemma SourcesHaveNoBar(source: string)
    requires source in Schema.FACT_SOURCES
    ensures '|' !in source
  {
  }

  /** The hashed string determines the words, the reference and the source, even when the
      reference itself contains bars; and nothing else enters it. */
  lemma BasisIsInjective(
      a: Alphabet, c: string, ref: string, source: string, c': string, ref': string, source': string)
    requires Sensible(a) && source in Schema.FACT_SOURCES && source' in Schema.FACT_SOURCES
    ensures Basis(a, c, ref, source) == Basis(a, c', ref', source')
      <==> KeyWords(a, c) == KeyWords(a, c') && ref == ref' && source == source'
  {
    NormalizeEqualIffSameWords(a, c, c');
    if Basis(a, c, ref, source) == Basis(a, c', ref', source') {
      var n, n' := Normalize(a, c), Normalize(a, c');
      NormalizedHasNoBar(a, c);
      NormalizedHasNoBar(a, c');
      SourcesHaveNoBar(source);
      SourcesHaveNoBar(source');
      SplitAtLastBar(n + "|" + ref, source, n' + "|" + ref', source');
      SplitAtFirstBar(n, ref, n', ref');
    }
  }

  lemma NormalizedHasNoBar(a: Alphabet, content: string)
    requires Sensible(a)
    ensures '|' !in Normalize(a, content)
  {
    NormalizeIsJoinedWords(a, content);
    KeyWordsAreWords(a, content);
    JoinedCharacters(a, KeyWords(a, content));
  }

  // ---------------------------------------------------------------- the derivation as documented

  /** The documented normalisation: only letters, digits and whitespace survive, where the
      implementation keeps all of `\w`. */
  function Documented(a: Alphabet, alnum: char -> bool, content: string): string {
    Normalize(a.(word := alnum), content)
  }

  lemma {:induction false} SameKeep(a: Alphabet, b: Alphabet, s: string)
    requires forall c :: c in s ==> (a.word(c) || a.space(c) <==> b.word(c) || b.space(c))
    ensures Keep(a, s) == Keep(b, s)
  {
    if s == "" {
    } else {
      SameKeep(a, b, s[1..]);
    }
  }

  lemma {:induction false} SameSkip(a: Alphabet, b: Alphabet, s: string)
    requires a.space == b.space
    ensures SkipSpaces(a, s) == SkipSpaces(b, s)
  {
    if s == "" {
    } else {
      SameSkip(a, b, s[1..]);
    }
  }

  lemma {:induction false} SameCollapse(a: Alphabet, b: Alphabet, s: string)
    requires a.space == b.space
    ensures Collapse(a, s) == Collapse(b, s)
    decreases |s|
  {
    if s == "" {
    } else if a.space(s[0]) {
      SameSkip(a, b, s[1..]);
      SameCollapse(a, b, SkipSpaces(a, s[1..]));
    } else {
      SameCollapse(a, b, s[1..]);
    }
  }

  lemma {:induction false} SameTrim(a: Alphabet, b: Alphabet, s: string)
    requires a.space == b.space
    ensures TrimEnd(a, s) == TrimEnd(b, s)
  {
    if s == "" {
    } else {
      SameTrim(a, b, s[1..]);
    }
  }

  lemma {:induction false} SkipKeeps(a: Alphabet, s: string, c: char)
    requires c in s && !a.space(c)
    ensures c in SkipSpaces(a, s)
  {
    if a.space(s[0]) {
      SkipKeeps(a, s[1..], c);
    }
  }

  lemma {:induction false} CollapseKeeps(a: Alphabet, s: string, c: char)
    requires c in s && !a.space(c)
    ensures c in Collapse(a, s)
    decreases |s|
  {
    if a.space(s[0]) {
      SkipKeeps(a, s[1..], c);
      CollapseKeeps(a, SkipSpaces(a, s[1..]), c);
    } else if s[0] != c {
      CollapseKeeps(a, s[1..], c);
    }
  }

  lemma {:induction false} TrimKeeps(a: Alphabet, s: string, c: char)
    requires c in s && !a.space(c)
    ensures c in TrimEnd(a, s)
  {
    if s[0] == c {
    } else {
      TrimKeeps(a, s[1..], c);
    }
  }

  lemma {:induction false} KeepKeepsWords(a: Alphabet, s: string, c: char)
    requires c in s && a.word(c)
    ensures c in Keep(a, s)
  {
    if s[0] == c {
    } else {
      KeepKeepsWords(a, s[1..], c);
    }
  }

  /** No word character of the lower-cased content is lost. */
  lemma NormalizeKeeps(a: Alphabet, content: string, c: char)
    requires Sensible(a) && c in Lower(a, content) && a.word(c)
    ensures c in Normalize(a, content)
  {
    KeepKeepsWords(a, Lower(a, content), c);
    CollapseKeeps(a, Keep(a, Lower(a, content)), c);
    SkipKeeps(a, Collapse(a, Keep(a, Lower(a, content))), c);
    TrimKeeps(a, SkipSpaces(a, Collapse(a, Keep(a, Lower(a, content)))), c);
  }

  /** Implementation and document derive the same text if and only if the lower-cased content has no
      word character, such as an underscore, that is neither letter nor digit. */
  lemma DocumentedIsNormalizedIff(a: Alphabet, alnum: char -> bool, content: string)
    requires Sensible(a) && forall c :: alnum(c) ==> a.word(c)
    ensures Documented(a, alnum, content) == Normalize(a, content) <==>
      forall c :: c in Lower(a, content) && a.word(c) ==> alnum(c)
  {
    var b := a.(word := alnum);
    var s := Lower(a, content);
    assert Lower(b, content) == s;
    if forall c :: c in s && a.word(c) ==> alnum(c) {
      SameKeep(a, b, s);
      SameCollapse(a, b, Keep(a, s));
      SameSkip(a, b, Collapse(a, Keep(a, s)));
      SameTrim(a, b, SkipSpaces(a, Collapse(a, Keep(a, s))));
    } else {
      var c :| c in s && a.word(c) && !alnum(c);
      NormalizeKeeps(a, content, c);
      NormalizeIsJoinedWords(b, content);
      KeyWordsAreWords(b, content);
      JoinedCharacters(b, KeyWords(b, content));
      assert c !in Documented(a, alnum, content);
    }
  }

  /** The underscore is such a character: the document gives a lone one the key of an empty text, the
      implementation gives it a key of its own. */
  lemma UnderscoreSurvives(a: Alphabet, alnum: char -> bool)
    requires Sensible(a) && a.word('_') && a.lower('_') == '_'
    requires !alnum('_') && forall c :: alnum(c) ==> a.word(c)
    ensures Normalize(a, "_") == "_" && Documented(a, alnum, "_") == ""
    ensures Documented(a, alnum, "") == "" && Normalize(a, "") == ""
  {
    assert Lower(a, "_") == "_" && Lower(a.(word := alnum), "_") == "_";
    assert Lower(a, "") == "" && Lower(a.(word := alnum), "") == "";
    assert "_"[1..] == "";
    assert Keep(a, "_") == "_" && Keep(a.(word := alnum), "_") == "";
    assert Collapse(a, "_") == "_" && TrimEnd(a, "_") == "_";
  }
}
