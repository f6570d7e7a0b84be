/**
 * The e-mail shape test shared by the login and registration pages:
 * `/^[^\s@]+@[^\s@]+\.[^\s@]+$/.test(email)`.
 *
 * The pattern is modelled as a sequence of pieces and matched by an anchored
 * matcher, so `ValidEmail` is the regular expression's own verdict; the lemmas
 * then characterise the accepted strings structurally.
 */
module EmailRegex {

  /** `\s` of an ECMAScript regular expression: WhiteSpace and LineTerminator code points. */
  predicate IsWhitespace(c: char)
  {
    var u := c as int;
    (0x09 <= u <= 0x0D)               // tab, line feed, vertical tab, form feed, carriage return
    || u == 0x20 || u == 0xA0 || u == 0x1680
    || (0x2000 <= u <= 0x200A)
    || u == 0x2028 || u == 0x2029      // line and paragraph separators
    || u == 0x202F || u == 0x205F || u == 0x3000
    || u == 0xFEFF                     // zero width no-break space
  }

  /** A character class of the pattern: `[^\s@]`, or one literal character. */
  datatype CharClass = NotSpaceOrAt | Literal(c: char)

  /** One element of the pattern: exactly one character of a class, or one or more (`+`). */
  datatype Piece = One(cls: CharClass) | OneOrMore(cls: CharClass)

  predicate InClass(cls: CharClass, c: char)
  {
    match cls
    case NotSpaceOrAt => c != '@' && !IsWhitespace(c)
    case Literal(l) => c == l
  }

  /** The pattern anchored at both ends (`^…$`) matches the whole of `s`. */
  predicate FullMatch(p: seq<Piece>, s: string)
    decreases |s|
  {
    if p == [] then s == []
    else
      |s| > 0 && InClass(p[0].cls, s[0]) &&
      match p[0]
      case One(_) => FullMatch(p[1..], s[1..])
      case OneOrMore(_) => FullMatch(p[1..], s[1..]) || FullMatch(p, s[1..])
  }

  /** `[^\s@]+@[^\s@]+\.[^\s@]+` */
  const EmailPattern: seq<Piece> :=
    [OneOrMore(NotSpaceOrAt), One(Literal('@')), OneOrMore(NotSpaceOrAt), One(Literal('.')), OneOrMore(NotSpaceOrAt)]

  /**
   * `validateEmail` of both form pages: the regular expression's verdict, which
   * accepts exactly the strings of the shape `EmailShape`.
   */
  predicate ValidEmail(email: string)
    ensures ValidEmail(email) <==> EmailShape(email)
  {
    PatternIsShape(email);
    FullMatch(EmailPattern, email)
  }

  // ---------------------------------------------------------------------------
  // What the pattern accepts, stated without the matcher

  /** Every character of `t` is in `[^\s@]`. */
  predicate Plain(t: string)
  {
    forall k :: 0 <= k < |t| ==> InClass(NotSpaceOrAt, t[k])
  }

  /** `r` has a '.' that is neither its first nor its last character. */
  predicate HasInteriorDot(r: string)
  {
    exists d :: 0 < d < |r| - 1 && r[d] == '.'
  }

  /**
   * The shape the pattern describes: a non-empty local part and a domain, both
   * free of '@' and whitespace, separated by '@', the domain with an interior '.'.
   */
  ghost predicate EmailShape(s: string)
  {
    exists at :: 0 < at < |s| && s[at] == '@' && Plain(s[..at]) && Plain(s[at + 1..]) && HasInteriorDot(s[at + 1..])
  }

  /** Number of occurrences of `c` in `s`. */
  function Occurrences(c: char, s: string): nat
  {
    if s == [] then 0 else (if s[0] == c then 1 else 0) + Occurrences(c, s[1..])
  }

  /** Unfolding one `One` piece at the head of a pattern. */
  lemma OneStep(cls: CharClass, rest: seq<Piece>, s: string)
    ensures FullMatch([One(cls)] + rest, s) <==> |s| > 0 && InClass(cls, s[0]) && FullMatch(rest, s[1..])
  {
    assert ([One(cls)] + rest)[1..] == rest;
  }

  /** A `+` piece at the head matches any non-empty run of its class followed by a match of the rest. */
  lemma {:induction false} PlusIntro(cls: CharClass, rest: seq<Piece>, s: string, k: nat)
    requires 1 <= k <= |s|
    requires forall i :: 0 <= i < k ==> InClass(cls, s[i])
    requires FullMatch(rest, s[k..])
    ensures FullMatch([OneOrMore(cls)] + rest, s)
    decreases k
  {
    assert ([OneOrMore(cls)] + rest)[1..] == rest;
    if k > 1 {
      assert s[1..][k - 1..] == s[k..];
      PlusIntro(cls, rest, s[1..], k - 1);
    }
  }

  /** Conversely, a match of a `+` piece at the head splits `s` after a non-empty run of its class. */
  lemma {:induction false} PlusElim(cls: CharClass, rest: seq<Piece>, s: string) returns (k: nat)
    requires FullMatch([OneOrMore(cls)] + rest, s)
    ensures 1 <= k <= |s|
    ensures forall i :: 0 <= i < k ==> InClass(cls, s[i])
    ensures FullMatch(rest, s[k..])
    decreases |s|
  {
    assert ([OneOrMore(cls)] + rest)[1..] == rest;
    if FullMatch(rest, s[1..]) {
      k := 1;
    } else {
      var k' := PlusElim(cls, rest, s[1..]);
      k := k' + 1;
      assert s[1..][k'..] == s[k..];
    }
  }

  /** The part of the pattern after the '@': `[^\s@]+\.[^\s@]+`. */
  const DomainPattern: seq<Piece> := [OneOrMore(NotSpaceOrAt), One(Literal('.')), OneOrMore(NotSpaceOrAt)]

  /** A `+` piece alone matches exactly the non-empty runs of its class. */
  lemma PlusAlone(cls: CharClass, s: string)
    ensures FullMatch([OneOrMore(cls)], s) <==> |s| >= 1 && forall i :: 0 <= i < |s| ==> InClass(cls, s[i])
  {
    assert [OneOrMore(cls)] == [OneOrMore(cls)] + [];
    if FullMatch([OneOrMore(cls)], s) {
      var k := PlusElim(cls, [], s);
    }
    if |s| >= 1 && forall i :: 0 <= i < |s| ==> InClass(cls, s[i]) {
      assert s[|s|..] == [];
      PlusIntro(cls, [], s, |s|);
    }
  }

  /** A domain matches `[^\s@]+\.[^\s@]+` iff it is plain and has an interior '.'. */
  lemma DomainMatch(r: string)
    ensures FullMatch(DomainPattern, r) <==> Plain(r) && HasInteriorDot(r)
  {
    var tail := [One(Literal('.'))] + [OneOrMore(NotSpaceOrAt)];
    assert DomainPattern == [OneOrMore(NotSpaceOrAt)] + tail;
    if FullMatch(DomainPattern, r) {
      var dot := PlusElim(NotSpaceOrAt, tail, r);
      OneStep(Literal('.'), [OneOrMore(NotSpaceOrAt)], r[dot..]);
      var u := r[dot + 1..];
      assert r[dot..][1..] == u;
      PlusAlone(NotSpaceOrAt, u);
      forall k | 0 <= k < |r| ensures InClass(NotSpaceOrAt, r[k]) {
        if k > dot { assert r[k] == u[k - dot - 1]; }
      }
      assert r[dot] == '.';
    }
    if Plain(r) && HasInteriorDot(r) {
      var dot :| 0 < dot < |r| - 1 && r[dot] == '.';
      var u := r[dot + 1..];
      PlusAlone(NotSpaceOrAt, u);
      assert r[dot..][1..] == u;
      OneStep(Literal('.'), [OneOrMore(NotSpaceOrAt)], r[dot..]);
      PlusIntro(NotSpaceOrAt, tail, r, dot);
    }
  }

  /** Every string the regular expression accepts has the shape `EmailShape`. */
  lemma MatchIsShape(s: string)
    requires FullMatch(EmailPattern, s)
    ensures EmailShape(s)
  {
    var afterLocal := [One(Literal('@'))] + DomainPattern;
    assert EmailPattern == [OneOrMore(NotSpaceOrAt)] + afterLocal;
    var at := PlusElim(NotSpaceOrAt, afterLocal, s);
    OneStep(Literal('@'), DomainPattern, s[at..]);
    var r := s[at + 1..];
    assert s[at..][1..] == r;
    DomainMatch(r);
    assert Plain(s[..at]);
  }

  /** A plain local part, an '@' and a matching domain make a match of the whole pattern. */
  lemma LocalAtDomain(s: string, at: nat)
    requires 0 < at < |s| && s[at] == '@'
    requires Plain(s[..at])
    requires FullMatch(DomainPattern, s[at + 1..])
    ensures FullMatch(EmailPattern, s)
  {
    var afterLocal := [One(Literal('@'))] + DomainPattern;
    assert EmailPattern == [OneOrMore(NotSpaceOrAt)] + afterLocal;
    assert s[at..][1..] == s[at + 1..];
    OneStep(Literal('@'), DomainPattern, s[at..]);
    forall i | 0 <= i < at ensures InClass(NotSpaceOrAt, s[i]) {
      assert s[i] == s[..at][i];
    }
    PlusIntro(NotSpaceOrAt, afterLocal, s, at);
  }

  /** Every string of the shape `EmailShape` is accepted by the regular expression. */
  lemma ShapeIsMatch(s: string)
    requires EmailShape(s)
    ensures FullMatch(EmailPattern, s)
  {
    var at :| 0 < at < |s| && s[at] == '@' && Plain(s[..at]) && Plain(s[at + 1..]) && HasInteriorDot(s[at + 1..]);
    DomainMatch(s[at + 1..]);
    LocalAtDomain(s, at);
  }

  /** The regular expression accepts exactly the strings of the shape `EmailShape`. */
  lemma PatternIsShape(s: string)
    ensures FullMatch(EmailPattern, s) <==> EmailShape(s)
  {
    if FullMatch(EmailPattern, s) { MatchIsShape(s); }
    if EmailShape(s) { ShapeIsMatch(s); }
  }

  lemma {:induction false} OccurrencesAppend(c: char, a: string, b: string)
    ensures Occurrences(c, a + b) == Occurrences(c, a) + Occurrences(c, b)
  {
    if a == [] {
      assert a + b == b;
    } else {
      assert (a + b)[1..] == a[1..] + b;
      OccurrencesAppend(c, a[1..], b);
    }
  }

  lemma {:induction false} PlainHasNoAt(t: string)
    requires Plain(t)
    ensures Occurrences('@', t) == 0
  {
    if t != [] {
      assert InClass(NotSpaceOrAt, t[0]);
      PlainHasNoAt(t[1..]);
    }
  }

  /** A string of the shape, split at its '@', has one '@', not at its start, and no whitespace. */
  lemma {:induction false} ShapeHasOneAt(s: string, at: nat)
    requires 0 < at < |s| && s[at] == '@' && Plain(s[..at]) && Plain(s[at + 1..])
    ensures Occurrences('@', s) == 1
    ensures s[0] != '@'
    ensures forall k :: 0 <= k < |s| ==> !IsWhitespace(s[k])
  {
    assert s == s[..at] + [s[at]] + s[at + 1..];
    PlainHasNoAt(s[..at]);
    PlainHasNoAt(s[at + 1..]);
    OccurrencesAppend('@', s[..at] + [s[at]], s[at + 1..]);
    OccurrencesAppend('@', s[..at], [s[at]]);
    assert s[0] == s[..at][0];
    forall k | 0 <= k < |s| ensures !IsWhitespace(s[k]) {
      if k < at { assert s[k] == s[..at][k]; }
      else if k > at { assert s[k] == s[at + 1..][k - at - 1]; }
    }
  }

  /** An accepted address contains exactly one '@', not at its start, and no whitespace at all. */
  lemma ValidEmailHasOneAt(s: string)
    requires ValidEmail(s)
    ensures Occurrences('@', s) == 1
    ensures s[0] != '@'
    ensures forall k :: 0 <= k < |s| ==> !IsWhitespace(s[k])
  {
    var at :| 0 < at < |s| && s[at] == '@' && Plain(s[..at]) && Plain(s[at + 1..]) && HasInteriorDot(s[at + 1..]);
    ShapeHasOneAt(s, at);
  }

  /** The empty string is never a valid address (so "required" and "format" errors never coincide). */
  lemma EmptyIsNotEmail()
    ensures !ValidEmail("")
  {
  }
}
