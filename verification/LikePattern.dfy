/** The search fallback of `_search_facts`: the query is escaped into a LIKE pattern by three
    chained replacements, sent through PostgREST, and matched by Postgres ILIKE. */
module LikePattern {

  /** Python's `s.replace(c, into)` for a one-character needle. */
  function Replace(s: string, c: char, into: string): string {
    if s == "" then "" else (if s[0] == c then into else [s[0]]) + Replace(s[1..], c, into)
  }

  /** The escape as the server writes it: backslash first, then percent, then underscore. */
  function EscapeChain(q: string): string {
    Replace(Replace(Replace(q, '\\', "\\\\"), '%', "\\%"), '_', "\\_")
  }

  function EscapeChar(c: char): string {
    if c == '\\' || c == '%' || c == '_' then ['\\', c] else [c]
  }

  /** The escape one would specify: every special character gets one backslash. */
  function Escape(q: string): string {
    if q == "" then "" else EscapeChar(q[0]) + Escape(q[1..])
  }

  /** The pattern the server sends. */
  function Pattern(q: string): string {
    "%" + EscapeChain(q) + "%"
  }

  /** PostgREST reads `*` in a like/ilike value as `%`. */
  function Alias(p: string): string {
    Replace(p, '*', "%")
  }

  /** LIKE with the default backslash escape (section 9.7.1 of the PostgreSQL documentation),
      comparing folded characters, which makes it ILIKE. A dangling escape matches nothing. */
  predicate Like(t: string, p: string, fold: char -> char)
    decreases |t| + |p|
  {
    if p == "" then t == ""
    else if p[0] == '%' then Like(t, p[1..], fold) || (t != "" && Like(t[1..], p, fold))
    else if t == "" then false
    else if p[0] == '_' then Like(t[1..], p[1..], fold)
    else if p[0] == '\\' then |p| > 1 && fold(t[0]) == fold(p[1]) && Like(t[1..], p[2..], fold)
    else fold(t[0]) == fold(p[0]) && Like(t[1..], p[1..], fold)
  }

  /** What the fallback asks the database: does this content match the query? */
  predicate Fallback(content: string, q: string, fold: char -> char) {
    Like(content, Alias(Pattern(q)), fold)
  }

  predicate StartsWith(t: string, q: string, fold: char -> char) {
    |q| <= |t| && forall k :: 0 <= k < |q| ==> fold(t[k]) == fold(q[k])
  }

  /** The meaning a user expects: `q` occurs in `t`, ignoring case. */
  ghost predicate Contains(t: string, q: string, fold: char -> char) {
    exists i :: 0 <= i <= |t| && StartsWith(t[i..], q, fold)
  }

  /** What the query matches from the start of `t`, with each `*` standing for any run. */
  ghost predicate Glob(t: string, q: string, fold: char -> char)
    decreases |q|
  {
    if q == "" then true
    else if q[0] == '*' then exists i :: 0 <= i <= |t| && Glob(t[i..], q[1..], fold)
    else t != "" && fold(t[0]) == fold(q[0]) && Glob(t[1..], q[1..], fold)
  }

  /** The query matches from some position. */
  ghost predicate Occurs(t: string, q: string, fold: char -> char) {
    exists i :: 0 <= i <= |t| && Glob(t[i..], q, fold)
  }

  function StripStars(q: string): string {
    Replace(q, '*', "")
  }

  lemma {:induction false} ReplaceConcat(s: string, t: string, c: char, into: string)
    ensures Replace(s + t, c, into) == Replace(s, c, into) + Replace(t, c, into)
  {
    if s == "" {
      assert s + t == t;
    } else {
      assert (s + t)[1..] == s[1..] + t;
      ReplaceConcat(s[1..], t, c, into);
    }
  }

  lemma {:induction false} ReplaceAbsent(s: string, c: char, into: string)
    requires c !in s
    ensures Replace(s, c, into) == s
  {
    if s == "" {
    } else {
      ReplaceAbsent(s[1..], c, into);
    }
  }

  /** The three chained replacements never escape each other's output. */
  lemma {:induction false} EscapeChainIsEscape(q: string)
    ensures EscapeChain(q) == Escape(q)
  {
    if q == "" {
    } else {
      EscapeChainIsEscape(q[1..]);
      assert q == [q[0]] + q[1..];
      var head := Replace([q[0]], '\\', "\\\\");
      ReplaceConcat([q[0]], q[1..], '\\', "\\\\");
      ReplaceConcat(head, Replace(q[1..], '\\', "\\\\"), '%', "\\%");
      ReplaceConcat(Replace(head, '%', "\\%"), Replace(Replace(q[1..], '\\', "\\\\"), '%', "\\%"), '_', "\\_");
      EscapeChainOne(q[0]);
    }
  }

  lemma EscapeChainOne(c: char)
    ensures EscapeChain([c]) == EscapeChar(c)
  {
    forall x: char, d: char, into: string
      ensures Replace([x], d, into) == if x == d then into else [x]
    {
      assert [x][1..] == "";
    }
    if c == '\\' {
      assert "\\\\"[1..] == "\\";
    } else if c == '%' {
      assert "\\%"[1..] == "%";
    }
  }

  lemma StartsWithStep(t: string, q: string, fold: char -> char)
    requires t != "" && q != ""
    ensures StartsWith(t, q, fold) <==> fold(t[0]) == fold(q[0]) && StartsWith(t[1..], q[1..], fold)
  {
    if fold(t[0]) == fold(q[0]) && StartsWith(t[1..], q[1..], fold) {
      forall k | 0 <= k < |q| ensures fold(t[k]) == fold(q[k]) {
        if k > 0 {
          assert t[1..][k - 1] == t[k] && q[1..][k - 1] == q[k];
        }
      }
    }
  }

  /** A percent sign skips any number of characters. */
  lemma {:induction false} PercentSkips(t: string, rest: string, fold: char -> char)
    ensures Like(t, "%" + rest, fold) <==> exists i :: 0 <= i <= |t| && Like(t[i..], rest, fold)
    decreases |t|
  {
    assert ("%" + rest)[1..] == rest;
    assert t[0..] == t;
    if t == "" {
    } else {
      PercentSkips(t[1..], rest, fold);
      if i :| 0 <= i <= |t| && Like(t[i..], rest, fold) && i > 0 {
        assert t[1..][i - 1..] == t[i..];
      }
      if i :| 0 <= i <= |t| - 1 && Like(t[1..][i..], rest, fold) {
        assert t[1..][i..] == t[i + 1..];
      }
    }
  }

  lemma {:induction false} PercentMatchesAll(t: string, fold: char -> char)
    ensures Like(t, "%", fold)
  {
    if t == "" {
    } else {
      PercentMatchesAll(t[1..], fold);
    }
  }

  /** An escaped query matches itself literally, except that its stars match anything. */
  lemma {:induction false} EscapedIsGlob(t: string, q: string, fold: char -> char)
    ensures Like(t, Alias(Escape(q)) + "%", fold) <==> Glob(t, q, fold)
    decreases |q|
  {
    if q == "" {
      PercentMatchesAll(t, fold);
      assert Alias(Escape(q)) + "%" == "%";
    } else {
      var e := EscapeChar(q[0]);
      var rest := Alias(Escape(q[1..])) + "%";
      ReplaceConcat(e, Escape(q[1..]), '*', "%");
      assert Alias(Escape(q)) + "%" == Alias(e) + rest;
      if q[0] == '*' {
        assert e[1..] == "" && Alias(e) == "%";
        PercentSkips(t, rest, fold);
        forall i | 0 <= i <= |t| ensures Like(t[i..], rest, fold) <==> Glob(t[i..], q[1..], fold) {
          EscapedIsGlob(t[i..], q[1..], fold);
        }
      } else {
        ReplaceAbsent(e, '*', "%");
        assert (e + rest)[|e|..] == rest;
        if t != "" {
          EscapedIsGlob(t[1..], q[1..], fold);
        }
      }
    }
  }

  /** The fallback, for every query: some position of the content matches the query literally,
      ignoring case, with `*` matching any run of characters. */
  lemma FallbackIsGlobAnywhere(t: string, q: string, fold: char -> char)
    ensures Fallback(t, q, fold) <==> Occurs(t, q, fold)
  {
    EscapeChainIsEscape(q);
    ReplaceConcat("%", Escape(q) + "%", '*', "%");
    ReplaceConcat(Escape(q), "%", '*', "%");
    ReplaceAbsent("%", '*', "%");
    assert Pattern(q) == "%" + (Escape(q) + "%");
    PercentSkips(t, Alias(Escape(q)) + "%", fold);
    forall i | 0 <= i <= |t|
      ensures Like(t[i..], Alias(Escape(q)) + "%", fold) <==> Glob(t[i..], q, fold)
    {
      EscapedIsGlob(t[i..], q, fold);
    }
  }

  lemma {:induction false} StarFreeGlob(t: string, q: string, fold: char -> char)
    requires '*' !in q
    ensures Glob(t, q, fold) <==> StartsWith(t, q, fold)
    decreases |q|
  {
    if q == "" || t == "" {
    } else {
      StarFreeGlob(t[1..], q[1..], fold);
      StartsWithStep(t, q, fold);
    }
  }

  /** A query without `*` matches exactly the contents that contain it, ignoring case. */
  lemma EscapingIsExact(t: string, q: string, fold: char -> char)
    requires '*' !in q
    ensures Fallback(t, q, fold) <==> Contains(t, q, fold)
  {
    FallbackIsGlobAnywhere(t, q, fold);
    forall i | 0 <= i <= |t| ensures Glob(t[i..], q, fold) <==> StartsWith(t[i..], q, fold) {
      StarFreeGlob(t[i..], q, fold);
    }
  }

  /** With its stars removed a query still matches itself, and gets shorter. */
  lemma {:induction false} StrippedMatches(q: string, fold: char -> char)
    ensures Glob(StripStars(q), q, fold)
    ensures |StripStars(q)| <= |q| && ('*' in q ==> |StripStars(q)| < |q|)
  {
    if q == "" {
    } else {
      StrippedMatches(q[1..], fold);
      if q[0] == '*' {
        assert StripStars(q) == StripStars(q[1..]) && StripStars(q)[0..] == StripStars(q);
      } else {
        assert StripStars(q)[1..] == StripStars(q[1..]);
      }
    }
  }

  /** The fallback means "contains, ignoring case" for every content exactly when the query has no `*`. */
  lemma FallbackMeansContainsIffStarFree(q: string, fold: char -> char)
    ensures (forall t: string :: Fallback(t, q, fold) <==> Contains(t, q, fold)) <==> '*' !in q
  {
    if '*' !in q {
      forall t: string ensures Fallback(t, q, fold) <==> Contains(t, q, fold) {
        EscapingIsExact(t, q, fold);
      }
    } else {
      var t := StripStars(q);
      StrippedMatches(q, fold);
      FallbackIsGlobAnywhere(t, q, fold);
      assert t[0..] == t;
      assert Fallback(t, q, fold) && !Contains(t, q, fold);
    }
  }
}
