/** The account e-mail validators: a restricted-domain check and a check
    that the address's user name does not appear in the person's name. Both
    signal a failure by raising and change nothing; here they return the
    error they would raise, or None. Python's `str.split` with a separator,
    `str.lower` and the substring test `in` are written out. */
module Validators {
  import opened Abstracts

  /** The errors the validators raise. */
  datatype AccountError =
    | DomainNotAllowed(domain: string)
    | UsernameInName

  // ---------------------------------------------------------------------------
  // str.split(sep)
  // ---------------------------------------------------------------------------

  /** The parts glued back together with the separator between them. */
  function Join(parts: seq<string>, c: char): string
    requires |parts| >= 1
  {
    if |parts| == 1 then parts[0] else parts[0] + [c] + Join(parts[1..], c)
  }

  /** `s.split(c)`: the maximal runs between separators, at least one (the
      empty string splits into `['']`), none holding the separator. */
  function Split(s: string, c: char): (r: seq<string>)
    ensures |r| >= 1
    ensures forall i :: 0 <= i < |r| ==> c !in r[i]
    decreases |s|
  {
    if s == [] then [""]
    else
      var rest := Split(s[1..], c);
      if s[0] == c then [""] + rest
      else
        assert c !in [s[0]] + rest[0];
        [[s[0]] + rest[0]] + rest[1..]
  }

  /** Split then join gives the string back. */
  lemma {:induction false} JoinSplit(s: string, c: char)
    ensures Join(Split(s, c), c) == s
    decreases |s|
  {
    if s != [] {
      JoinSplit(s[1..], c);
      assert s == [s[0]] + s[1..];
      var rest := Split(s[1..], c);
      if s[0] != c && |rest| > 1 {
        assert Join(rest, c) == rest[0] + [c] + Join(rest[1..], c);
        assert ([[s[0]] + rest[0]] + rest[1..])[1..] == rest[1..];
      }
    }
  }

  /** A string without the separator is a single part. */
  lemma {:induction false} SplitWithoutSeparator(s: string, c: char)
    requires c !in s
    ensures Split(s, c) == [s]
    decreases |s|
  {
    if s != [] {
      assert s == [s[0]] + s[1..];
      SplitWithoutSeparator(s[1..], c);
    }
  }

  /** Splitting at one occurrence of the separator splits the two sides
      independently. */
  lemma {:induction false} SplitAtSeparator(p: string, c: char, d: string)
    ensures Split(p + [c] + d, c) == Split(p, c) + Split(d, c)
    decreases |p|
  {
    if p == [] {
      assert p + [c] + d == [c] + d;
      assert ([c] + d)[1..] == d;
    } else {
      assert (p + [c] + d)[1..] == p[1..] + [c] + d;
      assert (p + [c] + d)[0] == p[0];
      SplitAtSeparator(p[1..], c, d);
    }
  }

  /** Join then split gives the parts back when no part holds the separator,
      so with `JoinSplit` the two are inverse. */
  lemma {:induction false} SplitJoin(parts: seq<string>, c: char)
    requires |parts| >= 1
    requires forall i :: 0 <= i < |parts| ==> c !in parts[i]
    ensures Split(Join(parts, c), c) == parts
    decreases |parts|
  {
    if |parts| == 1 {
      SplitWithoutSeparator(parts[0], c);
    } else {
      SplitJoin(parts[1..], c);
      SplitWithoutSeparator(parts[0], c);
      SplitAtSeparator(parts[0], c, Join(parts[1..], c));
      assert parts == [parts[0]] + parts[1..];
    }
  }

  // ---------------------------------------------------------------------------
  // str.lower
  // ---------------------------------------------------------------------------

  predicate IsUpper(ch: char) { 'A' <= ch <= 'Z' }

  /** The lower-case form of one character: the letters A to Z are mapped to
      a to z and every other character is kept. */
  function LowerChar(ch: char): (r: char)
    ensures !IsUpper(r)
    ensures IsUpper(ch) ==> r as int == ch as int + 32
    ensures !IsUpper(ch) ==> r == ch
  {
    if IsUpper(ch) then (ch as int + 32) as char else ch
  }

  /** `s.lower()`, character by character. */
  function Lower(s: string): (r: string)
    ensures |r| == |s|
    ensures forall i :: 0 <= i < |s| ==> r[i] == LowerChar(s[i])
  {
    if s == [] then [] else [LowerChar(s[0])] + Lower(s[1..])
  }

  /** Lower-casing twice is lower-casing once. */
  lemma LowerIdempotent(s: string)
    ensures Lower(Lower(s)) == Lower(s)
  {
  }

  /** Lower-casing distributes over concatenation. */
  lemma LowerConcat(a: string, b: string)
    ensures Lower(a + b) == Lower(a) + Lower(b)
  {
  }

  /** Every part lower-cased. */
  function LowerAll(parts: seq<string>): (r: seq<string>)
    ensures |r| == |parts|
    ensures forall i :: 0 <= i < |parts| ==> r[i] == Lower(parts[i])
  {
    seq(|parts|, i requires 0 <= i < |parts| => Lower(parts[i]))
  }

  /** Lower-casing does not move the '@' separators: the parts of the
      lower-cased string are the lower-cased parts. */
  lemma {:induction false} SplitLower(s: string)
    ensures Split(Lower(s), '@') == LowerAll(Split(s, '@'))
    decreases |s|
  {
    if s != [] {
      SplitLower(s[1..]);
      assert Lower(s) == [LowerChar(s[0])] + Lower(s[1..]);
      assert Lower(s)[1..] == Lower(s[1..]);
      var parts := Split(s[1..], '@');
      if s[0] != '@' {
        assert Lower([s[0]] + parts[0]) == [LowerChar(s[0])] + Lower(parts[0]);
      }
    }
  }

  // ---------------------------------------------------------------------------
  // Substring test
  // ---------------------------------------------------------------------------

  /** Python's `a in b` for strings: `a` occurs in `b` at some position
      (the empty string occurs in every string). */
  function Contains(b: string, a: string): (r: bool)
    decreases |b|
  {
    if a <= b then true
    else if b == [] then false
    else Contains(b[1..], a)
  }

  /** The reference definition of `a in b`: a window of `b` equals `a`. */
  ghost predicate OccursAt(b: string, a: string, k: int) {
    0 <= k && k + |a| <= |b| && b[k..k + |a|] == a
  }

  ghost predicate Occurs(b: string, a: string) {
    exists k :: OccursAt(b, a, k)
  }

  /** A window one place into the tail is one place further into the string. */
  lemma OccursShift(b: string, a: string, k: nat)
    requires b != []
    ensures OccursAt(b[1..], a, k) <==> OccursAt(b, a, k + 1)
  {
    if k + |a| <= |b[1..]| {
      assert b[1..][k..k + |a|] == b[k + 1..k + 1 + |a|];
    }
  }

  /** `Contains` finds exactly the strings that occur in `b`, both ways. */
  lemma {:induction false} ContainsIffOccurs(b: string, a: string)
    ensures Contains(b, a) <==> Occurs(b, a)
    decreases |b|
  {
    if a <= b {
      assert OccursAt(b, a, 0);
    } else if b != [] {
      ContainsIffOccurs(b[1..], a);
      if Occurs(b[1..], a) {
        var k :| OccursAt(b[1..], a, k);
        OccursShift(b, a, k);
      }
      if Occurs(b, a) {
        var k :| OccursAt(b, a, k);
        assert k != 0;
        OccursShift(b, a, k - 1);
      }
    }
  }

  // ---------------------------------------------------------------------------
  // validate_email_domain
  // ---------------------------------------------------------------------------

  /** The domains refused at registration. */
  const RestrictedDomains: seq<string> := ["mail.ru", "tempmail.com"]

  /** The domain as the validator reads it: the last '@'-separated part,
      lower-cased. */
  function Domain(email: string): string {
    Lower(Last(Split(email, '@')))
  }

  /** The last of the parts. */
  function Last(parts: seq<string>): string
    requires |parts| >= 1
  {
    parts[|parts| - 1]
  }

  /** validate_email_domain: refused, naming the domain, exactly when the
      domain is one of the restricted ones. */
  function ValidateEmailDomain(email: string): (r: Option<AccountError>)
    ensures r.Some? <==> Domain(email) in RestrictedDomains
    ensures r.Some? ==> r.value == DomainNotAllowed(Domain(email))
  {
    var domain := Domain(email);
    if domain in RestrictedDomains then Some(DomainNotAllowed(domain)) else None
  }

  /** The domain of `local@domain` is the lower-cased text after the last
      '@', whatever the local text holds. */
  lemma DomainOfAddress(local: string, domain: string)
    requires '@' !in domain
    ensures Domain(local + "@" + domain) == Lower(domain)
  {
    SplitAtSeparator(local, '@', domain);
    SplitWithoutSeparator(domain, '@');
  }

  /** An address without '@' is all domain. */
  lemma DomainWithoutAt(email: string)
    requires '@' !in email
    ensures Domain(email) == Lower(email)
  {
    SplitWithoutSeparator(email, '@');
  }

  /** The domain is the last part of the lower-cased address. */
  lemma DomainFromLower(e: string)
    ensures Domain(e) == Last(Split(Lower(e), '@'))
  {
    SplitLower(e);
    LastLowerAll(Split(e, '@'));
  }

  /** The last lower-cased part is the lower-cased last part. */
  lemma LastLowerAll(parts: seq<string>)
    requires |parts| >= 1
    ensures Last(LowerAll(parts)) == Lower(Last(parts))
  {
  }

  /** The domain check ignores case: addresses that agree once lower-cased
      get the same answer. */
  lemma DomainCheckIgnoresCase(e1: string, e2: string)
    requires Lower(e1) == Lower(e2)
    ensures ValidateEmailDomain(e1) == ValidateEmailDomain(e2)
  {
    DomainFromLower(e1);
    DomainFromLower(e2);
  }

  // ---------------------------------------------------------------------------
  // validate_email_not_in_name
  // ---------------------------------------------------------------------------

  /** The user name as the validator reads it: the first '@'-separated part,
      lower-cased. */
  function LocalPart(email: string): string {
    Lower(Split(email, '@')[0])
  }

  /** validate_email_not_in_name: nothing to check when either text is
      empty; otherwise refused exactly when the user name occurs in the
      lower-cased name. */
  function ValidateEmailNotInName(email: string, fullName: string): (r: Option<AccountError>)
    ensures email == [] || fullName == [] ==> r == None
    ensures email != [] && fullName != [] ==>
            (r.Some? <==> Occurs(Lower(fullName), LocalPart(email)))
    ensures r.Some? ==> r.value == UsernameInName
  {
    if email == [] || fullName == [] then None
    else
      var name, local := Lower(fullName), LocalPart(email);
      ContainsIffOccurs(name, local);
      if Contains(name, local) then Some(UsernameInName) else None
  }

  /** The user name of `local@rest` is the lower-cased text before the first
      '@'. */
  lemma LocalPartOfAddress(local: string, rest: string)
    requires '@' !in local
    ensures LocalPart(local + "@" + rest) == Lower(local)
  {
    SplitAtSeparator(local, '@', rest);
    SplitWithoutSeparator(local, '@');
  }

  /** An address that starts with '@' has an empty user name, which occurs
      in every name, so it is refused against any non-empty name. */
  lemma EmptyLocalPartRefused(rest: string, fullName: string)
    requires fullName != []
    ensures ValidateEmailNotInName("@" + rest, fullName) == Some(UsernameInName)
  {
    LocalPartOfAddress("", rest);
    assert "" + "@" + rest == "@" + rest;
    assert OccursAt(Lower(fullName), LocalPart("@" + rest), 0);
  }

  /** The name check ignores the case of the name. */
  lemma NameCheckIgnoresCase(email: string, n1: string, n2: string)
    requires Lower(n1) == Lower(n2)
    ensures ValidateEmailNotInName(email, n1) == ValidateEmailNotInName(email, n2)
  {
    assert |n1| == |Lower(n1)| == |n2|;
  }

  /** A name holding the user name, in any case, is refused. */
  lemma NameHoldingUserNameRefused(local: string, rest: string, before: string, after: string)
    requires '@' !in local
    requires |before + local + after| > 0
    ensures ValidateEmailNotInName(local + "@" + rest, before + local + after) == Some(UsernameInName)
  {
    LocalPartOfAddress(local, rest);
    var name := before + local + after;
    var l := Lower(name);
    assert l[|before|..|before| + |local|] == Lower(local) by {
      forall j | 0 <= j < |local| ensures l[|before| + j] == Lower(local)[j] {
        assert name[|before| + j] == local[j];
      }
    }
    assert OccursAt(l, LocalPart(local + "@" + rest), |before|);
  }
}
