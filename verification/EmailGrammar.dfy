/** The address grammar: the linear expression, its quadratic spelling, and the rule in plain words. */
module EmailGrammar {
  import opened Utf8

  const AT: Unit := 0x40
  const DOT: Unit := 0x2E

  /** The white space of `\s`, and U+0085 beside it. */
  predicate Blank(u: Unit) {
    || 0x09 <= u <= 0x0D || u == 0x20 || u == 0x85 || u == 0xA0 || u == 0x1680 || 0x2000 <= u <= 0x200A
    || u == 0x2028 || u == 0x2029 || u == 0x202F || u == 0x205F || u == 0x3000 || u == 0xFEFF
  }

  // ----- Expressions -----

  datatype Class = NotBlankOrAt | NotBlankAtOrDot | TheAt | TheDot

  datatype Repeat = Once | OneOrMore | AnyNumber

  datatype Piece = Piece(kind: Class, repeat: Repeat)

  predicate Takes(c: Class, u: Unit) {
    match c
    case NotBlankOrAt => !Blank(u) && u != AT
    case NotBlankAtOrDot => !Blank(u) && u != AT && u != DOT
    case TheAt => u == AT
    case TheDot => u == DOT
  }

  predicate TakesAll(c: Class, s: seq<Unit>) {
    forall i :: 0 <= i < |s| ==> Takes(c, s[i])
  }

  predicate TakesPiece(p: Piece, s: seq<Unit>) {
    && TakesAll(p.kind, s)
    && (p.repeat.Once? ==> |s| == 1)
    && (p.repeat.OneOrMore? ==> |s| >= 1)
  }

  datatype Regex = End | Then(piece: Piece, rest: Regex)

  /** An anchored expression matches a text that splits into what its pieces take. */
  predicate Matches(r: Regex, s: seq<Unit>) {
    match r
    case End => s == []
    case Then(piece, rest) => exists k :: 0 <= k <= |s| && TakesPiece(piece, s[..k]) && Matches(rest, s[k..])
  }

  predicate SplitsAt(piece: Piece, rest: Regex, s: seq<Unit>, k: nat)
    requires k <= |s|
  {
    TakesPiece(piece, s[..k]) && Matches(rest, s[k..])
  }

  function Local(domain: Regex): Regex {
    Then(Piece(NotBlankOrAt, OneOrMore), Then(Piece(TheAt, Once), domain))
  }

  function Tail(): Regex {
    Then(Piece(NotBlankOrAt, AnyNumber), Then(Piece(NotBlankAtOrDot, Once), End))
  }

  function DotTail(): Regex {
    Then(Piece(TheDot, Once), Tail())
  }

  function LinearDomain(): Regex {
    Then(Piece(NotBlankAtOrDot, OneOrMore), DotTail())
  }

  function QuadraticDomain(): Regex {
    Then(Piece(NotBlankAtOrDot, Once), Then(Piece(NotBlankOrAt, AnyNumber), DotTail()))
  }

  // ----- The rule in plain words -----

  /** Holds a dot, and neither starts nor ends with one. */
  predicate GoodDomain(d: seq<Unit>) {
    DOT in d && d[0] != DOT && d[|d| - 1] != DOT
  }

  /** No white space, exactly one `@`, something before it, and a good domain after it. */
  predicate PlainRule(s: seq<Unit>) {
    && (forall i :: 0 <= i < |s| ==> !Blank(s[i]))
    && exists at ::
         0 < at < |s| && s[at] == AT && (forall i :: 0 <= i < |s| && i != at ==> s[i] != AT) && GoodDomain(s[at + 1..])
  }

  // ----- Domains -----

  lemma MatchesBy(piece: Piece, rest: Regex, s: seq<Unit>, k: nat)
    requires k <= |s| && SplitsAt(piece, rest, s, k)
    ensures Matches(Then(piece, rest), s)
  {
    assert TakesPiece(piece, s[..k]) && Matches(rest, s[k..]);
  }

  lemma SplitOf(piece: Piece, rest: Regex, s: seq<Unit>) returns (k: nat)
    requires Matches(Then(piece, rest), s)
    ensures k <= |s| && SplitsAt(piece, rest, s, k)
  {
    k :| 0 <= k <= |s| && TakesPiece(piece, s[..k]) && Matches(rest, s[k..]);
  }

  lemma MatchesOnce(c: Class, rest: Regex, s: seq<Unit>)
    ensures Matches(Then(Piece(c, Once), rest), s) <==> s != [] && Takes(c, s[0]) && Matches(rest, s[1..])
  {
    if s != [] && Takes(c, s[0]) && Matches(rest, s[1..]) {
      MatchesBy(Piece(c, Once), rest, s, 1);
    }
    if Matches(Then(Piece(c, Once), rest), s) {
      var k := SplitOf(Piece(c, Once), rest, s);
      assert s[..k][0] == s[0];
    }
  }

  function FirstDot(d: seq<Unit>): (k: nat)
    requires DOT in d
    ensures k < |d| && d[k] == DOT && forall i :: 0 <= i < k ==> d[i] != DOT
  {
    if d[0] == DOT then 0 else 1 + FirstDot(d[1..])
  }

  /** What follows a dot: anything, ending with something that is not one. */
  lemma LastMatches(t: seq<Unit>, k: nat)
    requires k <= |t|
    ensures Matches(Then(Piece(NotBlankAtOrDot, Once), End), t[k..]) <==> k == |t| - 1 && Takes(NotBlankAtOrDot, t[k])
  {
    MatchesOnce(NotBlankAtOrDot, End, t[k..]);
  }

  lemma TailMatches(t: seq<Unit>)
    ensures Matches(Tail(), t) <==> t != [] && TakesAll(NotBlankOrAt, t) && t[|t| - 1] != DOT
  {
    if t != [] {
      TakesInParts(NotBlankOrAt, t, |t| - 1);
      if TakesAll(NotBlankOrAt, t) && t[|t| - 1] != DOT { TailIf(t); }
    }
    if Matches(Tail(), t) {
      var k := SplitOf(Piece(NotBlankOrAt, AnyNumber), Then(Piece(NotBlankAtOrDot, Once), End), t);
      LastMatches(t, k);
    }
  }

  lemma TailIf(t: seq<Unit>)
    requires t != [] && TakesAll(NotBlankOrAt, t) && t[|t| - 1] != DOT
    ensures Matches(Tail(), t)
  {
    LastMatches(t, |t| - 1);
    MatchesBy(Piece(NotBlankOrAt, AnyNumber), Then(Piece(NotBlankAtOrDot, Once), End), t, |t| - 1);
  }

  /** From a place in the domain on: a dot, and a tail after it. */
  lemma DotTailMatches(d: seq<Unit>, k: nat)
    requires k <= |d|
    ensures Matches(DotTail(), d[k..]) <==>
            k < |d| - 1 && d[k] == DOT && TakesAll(NotBlankOrAt, d[k + 1..]) && d[|d| - 1] != DOT
  {
    MatchesOnce(TheDot, Tail(), d[k..]);
    if k < |d| {
      assert d[k..][1..] == d[k + 1..];
      TailMatches(d[k + 1..]);
    }
  }

  lemma TakesInParts(c: Class, d: seq<Unit>, k: nat)
    requires k < |d|
    ensures TakesAll(c, d) <==> TakesAll(c, d[..k]) && Takes(c, d[k]) && TakesAll(c, d[k + 1..])
  {
    assert d == d[..k] + [d[k]] + d[k + 1..];
  }

  lemma LinearDomainIsGood(d: seq<Unit>)
    ensures Matches(LinearDomain(), d) <==> TakesAll(NotBlankOrAt, d) && GoodDomain(d)
  {
    var first := Piece(NotBlankAtOrDot, OneOrMore);
    if TakesAll(NotBlankOrAt, d) && GoodDomain(d) {
      var k := FirstDot(d);
      DotTailMatches(d, k);
      TakesInParts(NotBlankOrAt, d, k);
      MatchesBy(first, DotTail(), d, k);
    }
    if Matches(LinearDomain(), d) {
      var k := SplitOf(first, DotTail(), d);
      DotTailMatches(d, k);
      assert TakesAll(NotBlankOrAt, d[..k]);
      TakesInParts(NotBlankOrAt, d, k);
      assert d[..k][0] == d[0] && d[k] in d;
    }
  }

  lemma InnerSplit(d: seq<Unit>, k: nat)
    requires 0 < k <= |d|
    ensures SplitsAt(Piece(NotBlankOrAt, AnyNumber), DotTail(), d[1..], k - 1) <==>
            TakesAll(NotBlankOrAt, d[1..k]) && k < |d| - 1 && d[k] == DOT && TakesAll(NotBlankOrAt, d[k + 1..])
              && d[|d| - 1] != DOT
  {
    DotTailMatches(d, k);
    assert d[1..][k - 1..] == d[k..] && d[1..][..k - 1] == d[1..k];
  }

  lemma InParts(d: seq<Unit>, k: nat)
    requires 0 < k < |d|
    ensures TakesAll(NotBlankOrAt, d) <==>
            Takes(NotBlankOrAt, d[0]) && TakesAll(NotBlankOrAt, d[1..k]) && Takes(NotBlankOrAt, d[k])
              && TakesAll(NotBlankOrAt, d[k + 1..])
  {
    assert d == [d[0]] + d[1..k] + [d[k]] + d[k + 1..];
  }

  /** A dot past the first place that splits the domain in two. */
  predicate DotInside(d: seq<Unit>, k: nat) {
    0 < k < |d| - 1 && TakesAll(NotBlankOrAt, d[1..k]) && d[k] == DOT && TakesAll(NotBlankOrAt, d[k + 1..])
      && d[|d| - 1] != DOT
  }

  lemma InnerMatches(d: seq<Unit>)
    requires d != []
    ensures Matches(Then(Piece(NotBlankOrAt, AnyNumber), DotTail()), d[1..]) <==> exists k: nat :: DotInside(d, k)
  {
    var any := Piece(NotBlankOrAt, AnyNumber);
    if k: nat :| DotInside(d, k) {
      InnerSplit(d, k);
      MatchesBy(any, DotTail(), d[1..], k - 1);
    }
    if Matches(Then(any, DotTail()), d[1..]) {
      var k := SplitOf(any, DotTail(), d[1..]);
      InnerSplit(d, k + 1);
      assert DotInside(d, k + 1);
    }
  }

  lemma DotInsideIsGood(d: seq<Unit>)
    requires d != []
    ensures Takes(NotBlankAtOrDot, d[0]) && (exists k: nat :: DotInside(d, k)) <==>
              TakesAll(NotBlankOrAt, d) && GoodDomain(d)
  {
    if TakesAll(NotBlankOrAt, d) && GoodDomain(d) {
      var k := FirstDot(d);
      InParts(d, k);
      assert DotInside(d, k);
    }
    if k: nat :| Takes(NotBlankAtOrDot, d[0]) && DotInside(d, k) {
      InParts(d, k);
      assert d[k] in d;
    }
  }

  lemma QuadraticDomainIsGood(d: seq<Unit>)
    ensures Matches(QuadraticDomain(), d) <==> TakesAll(NotBlankOrAt, d) && GoodDomain(d)
  {
    MatchesOnce(NotBlankAtOrDot, Then(Piece(NotBlankOrAt, AnyNumber), DotTail()), d);
    if d != [] {
      InnerMatches(d);
      DotInsideIsGood(d);
    }
  }

  // ----- Addresses -----

  /** Whatever the domain's expression, an address is a local part, the `@`, and what it matches. */
  lemma AtSplit(domain: Regex, s: seq<Unit>, at: nat)
    requires at <= |s|
    ensures SplitsAt(Piece(NotBlankOrAt, OneOrMore), Then(Piece(TheAt, Once), domain), s, at) <==>
              LocalAt(domain, s, at)
  {
    MatchesOnce(TheAt, domain, s[at..]);
    if at < |s| { assert s[at..][1..] == s[at + 1..]; }
  }

  predicate LocalAt(domain: Regex, s: seq<Unit>, at: nat) {
    0 < at < |s| && TakesAll(NotBlankOrAt, s[..at]) && s[at] == AT && Matches(domain, s[at + 1..])
  }

  lemma LocalThen(domain: Regex, s: seq<Unit>)
    ensures Matches(Local(domain), s) <==> exists at: nat :: LocalAt(domain, s, at)
  {
    var local, afterLocal := Piece(NotBlankOrAt, OneOrMore), Then(Piece(TheAt, Once), domain);
    if at: nat :| LocalAt(domain, s, at) {
      AtSplit(domain, s, at);
      MatchesBy(local, afterLocal, s, at);
    }
    if Matches(Local(domain), s) {
      var at := SplitOf(local, afterLocal, s);
      AtSplit(domain, s, at);
      assert LocalAt(domain, s, at);
    }
  }

  predicate AddressAt(s: seq<Unit>, at: nat) {
    0 < at < |s| && TakesAll(NotBlankOrAt, s[..at]) && s[at] == AT && TakesAll(NotBlankOrAt, s[at + 1..])
      && GoodDomain(s[at + 1..])
  }

  lemma AddressIsPlain(s: seq<Unit>)
    ensures PlainRule(s) <==> exists at: nat :: AddressAt(s, at)
  {
    if at: nat :| AddressAt(s, at) {
      forall i | 0 <= i < |s|
        ensures !Blank(s[i]) && (i != at ==> s[i] != AT)
      {
        assert i < at ==> s[i] == s[..at][i];
        assert i > at ==> s[i] == s[at + 1..][i - at - 1];
      }
    }
    if PlainRule(s) {
      var at :| 0 < at < |s| && s[at] == AT && (forall i :: 0 <= i < |s| && i != at ==> s[i] != AT)
        && GoodDomain(s[at + 1..]);
      assert AddressAt(s, at);
    }
  }

  /** The linear expression, its quadratic spelling and the plain-words rule accept the same texts. */
  lemma SameLanguage(s: seq<Unit>)
    ensures Matches(Local(LinearDomain()), s) <==> PlainRule(s)
    ensures Matches(Local(QuadraticDomain()), s) <==> PlainRule(s)
  {
    LocalThen(LinearDomain(), s);
    LocalThen(QuadraticDomain(), s);
    AddressIsPlain(s);
    forall at: nat
      ensures AddressAt(s, at) <==> LocalAt(LinearDomain(), s, at)
      ensures AddressAt(s, at) <==> LocalAt(QuadraticDomain(), s, at)
    {
      if at < |s| {
        LinearDomainIsGood(s[at + 1..]);
        QuadraticDomainIsGood(s[at + 1..]);
      }
    }
  }

  // ----- Why the linear one is linear -----

  /** A match of the linear expression has one way to split: at the one `@`, then at the domain's first dot. */
  lemma OneWayToMatch(d: seq<Unit>, k: nat)
    requires k <= |d| && SplitsAt(Piece(NotBlankAtOrDot, OneOrMore), DotTail(), d, k)
    ensures DOT in d && k == FirstDot(d)
  {
    DotTailMatches(d, k);
    assert d[k] in d;
    assert forall i :: 0 <= i < k ==> d[..k][i] == d[i];
  }

  /** A match of the quadratic one splits at every dot but the last place: each is one more way to try. */
  lemma EveryDotSplits(d: seq<Unit>, k: nat)
    requires Matches(QuadraticDomain(), d) && 0 < k < |d| && d[k] == DOT
    ensures SplitsAt(Piece(NotBlankOrAt, AnyNumber), DotTail(), d[1..], k - 1)
  {
    QuadraticDomainIsGood(d);
    InParts(d, k);
    InnerSplit(d, k);
  }
}
