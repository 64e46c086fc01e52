/** Escaping a search query for SQL LIKE, and what the escaped pattern matches. */
module LikePattern {

  const ESCAPE: char := '\\'

  predicate Special(c: char) {
    c == ESCAPE || c == '%' || c == '_'
  }

  function Escape(s: string): string {
    if s == "" then ""
    else (if Special(s[0]) then [ESCAPE, s[0]] else [s[0]]) + Escape(s[1..])
  }

  /** `text LIKE pattern ESCAPE '\'`: `%` is any run, `_` any one character, `\c` is `c` itself. */
  predicate Like(text: string, pattern: string)
    decreases |pattern|
  {
    if pattern == "" then text == ""
    else if pattern[0] == ESCAPE then
      |pattern| >= 2 && text != "" && text[0] == pattern[1] && Like(text[1..], pattern[2..])
    else if pattern[0] == '%' then exists k :: 0 <= k <= |text| && Like(text[k..], pattern[1..])
    else text != "" && (pattern[0] == '_' || text[0] == pattern[0]) && Like(text[1..], pattern[1..])
  }

  /** No escape at the end escapes nothing: a dangling one is an error to the database. */
  predicate WellFormed(pattern: string)
    decreases |pattern|
  {
    || pattern == ""
    || if pattern[0] == ESCAPE then |pattern| >= 2 && WellFormed(pattern[2..]) else WellFormed(pattern[1..])
  }

  /** What a pattern without wildcards says, its escapes taken off. */
  function Unescape(pattern: string): string
    decreases |pattern|
  {
    if pattern == "" then ""
    else if pattern[0] == ESCAPE && |pattern| >= 2 then [pattern[1]] + Unescape(pattern[2..])
    else [pattern[0]] + Unescape(pattern[1..])
  }

  lemma EscapeStep(c: char, rest: string, tail: string)
    ensures Escape([c] + rest) + tail == (if Special(c) then [ESCAPE, c] else [c]) + (Escape(rest) + tail)
  {
    assert ([c] + rest)[1..] == rest;
  }

  lemma AnythingMatches(text: string)
    ensures Like(text, "%")
  {
    assert Like(text[|text|..], "%"[1..]);
  }

  lemma TailsOf(a: string, b: string)
    ensures |a| == 2 ==> (a + b)[2..] == b
    ensures |a| == 1 ==> (a + b)[1..] == b
  {
  }

  lemma SplitAfterFirst(text: string, k: nat)
    requires 0 < k <= |text|
    ensures text[1..][k - 1..] == text[k..]
    ensures text[..k] == [text[0]] + text[1..][..k - 1]
  {
  }

  /** Escaping is exact in front of any pattern: the query itself, then what the rest matches. */
  lemma {:induction false} EscapedMatches(query: string, tail: string, text: string)
    ensures Like(text, Escape(query) + tail) <==>
              |query| <= |text| && text[..|query|] == query && Like(text[|query|..], tail)
  {
    if query == "" {
      assert Escape(query) + tail == tail && text[0..] == text;
    } else {
      var c, rest := query[0], query[1..];
      assert query == [c] + rest;
      EscapeStep(c, rest, tail);
      var pattern := Escape(query) + tail;
      TailsOf([ESCAPE, c], Escape(rest) + tail);
      TailsOf([c], Escape(rest) + tail);
      assert Like(text, pattern) <==> text != "" && text[0] == c && Like(text[1..], Escape(rest) + tail);
      if text != "" {
        EscapedMatches(rest, tail, text[1..]);
        if |query| <= |text| {
          SplitAfterFirst(text, |query|);
        }
      }
    }
  }

  /** The search pattern matches exactly the names the query is a prefix of, whatever it contains. */
  lemma SearchIsPrefix(query: string, name: string)
    ensures Like(name, Escape(query) + "%") <==> query <= name
  {
    EscapedMatches(query, "%", name);
    if |query| <= |name| {
      AnythingMatches(name[|query|..]);
    }
  }

  lemma {:induction false} SearchIsWellFormed(query: string, tail: string)
    requires WellFormed(tail)
    ensures WellFormed(Escape(query) + tail)
  {
    if query == "" {
      assert Escape(query) + tail == tail;
    } else {
      var c, rest := query[0], query[1..];
      assert query == [c] + rest;
      EscapeStep(c, rest, tail);
      TailsOf([ESCAPE, c], Escape(rest) + tail);
      TailsOf([c], Escape(rest) + tail);
      SearchIsWellFormed(rest, tail);
    }
  }

  lemma {:induction false} UnescapeUndoes(s: string)
    ensures Unescape(Escape(s)) == s
  {
    if s != "" {
      var c, rest := s[0], s[1..];
      UnescapeUndoes(rest);
      TailsOf([ESCAPE, c], Escape(rest));
      TailsOf([c], Escape(rest));
    }
  }

  // ----- Why it is escaped -----

  predicate Plain(s: string) {
    forall i :: 0 <= i < |s| ==> !Special(s[i])
  }

  lemma {:induction false} PlainUnchanged(s: string)
    requires Plain(s)
    ensures Escape(s) == s
  {
    if s != "" { PlainUnchanged(s[1..]); }
  }

  /** A shortest text a pattern matches: runs are empty, single characters an `a`. */
  function Sample(pattern: string): string
    decreases |pattern|
  {
    if pattern == "" then ""
    else if pattern[0] == ESCAPE then if |pattern| >= 2 then [pattern[1]] + Sample(pattern[2..]) else ""
    else if pattern[0] == '%' then Sample(pattern[1..])
    else [if pattern[0] == '_' then 'a' else pattern[0]] + Sample(pattern[1..])
  }

  lemma {:induction false} SampleMatches(pattern: string)
    requires WellFormed(pattern)
    ensures Like(Sample(pattern), pattern)
    decreases |pattern|
  {
    if pattern != "" {
      var text := Sample(pattern);
      if pattern[0] == ESCAPE {
        SampleMatches(pattern[2..]);
        assert text[1..] == Sample(pattern[2..]);
      } else {
        SampleMatches(pattern[1..]);
        if pattern[0] == '%' {
          assert text[0..] == text;
        } else {
          assert text[1..] == Sample(pattern[1..]);
        }
      }
    }
  }

  /** A query with a special character is never its own unescaped pattern's sample. */
  lemma {:induction false} SampleFallsShort(query: string)
    ensures WellFormed(query + "%")
    ensures |Sample(query + "%")| <= |query|
    ensures Sample(query + "%") == query ==> Plain(query)
    decreases |query|
  {
    var pattern := query + "%";
    if query != "" {
      if query[0] == ESCAPE {
        if |query| >= 2 {
          assert pattern[2..] == query[2..] + "%";
          SampleFallsShort(query[2..]);
        } else {
          assert pattern[2..] == "";
        }
      } else {
        assert pattern[1..] == query[1..] + "%";
        SampleFallsShort(query[1..]);
        if Sample(pattern) == query && query[0] != '%' && query[0] != '_' {
          assert Sample(pattern)[1..] == query[1..];
          assert forall i :: 0 < i < |query| ==> query[i] == query[1..][i - 1];
        }
      }
    }
  }

  /** Left unescaped, a query searches by prefix exactly when it holds no special character. */
  lemma UnescapedSearch(query: string)
    ensures Plain(query) <==> forall name :: Like(name, query + "%") <==> query <= name
  {
    if Plain(query) {
      PlainUnchanged(query);
      forall name { SearchIsPrefix(query, name); }
    } else {
      SampleFallsShort(query);
      SampleMatches(query + "%");
      var name := Sample(query + "%");
      assert Like(name, query + "%") && !(query <= name);
    }
  }
}
