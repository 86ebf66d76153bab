/** The user account's display names: the full name, the short name and
    the string form, each falling back to the e-mail address. Python's
    `str.strip()` with no argument is written out over the characters
    Python treats as whitespace. */
module Accounts {

  /** The name fields of a user; the address is unique among users. */
  datatype Account = Account(email: string, firstName: string, lastName: string)

  /** The characters for which Python's `str.isspace` holds. */
  predicate IsSpace(ch: char) {
    var c := ch as int;
    (0x09 <= c <= 0x0D) || (0x1C <= c <= 0x20) || c == 0x85 || c == 0xA0
    || c == 0x1680 || (0x2000 <= c <= 0x200A) || c == 0x2028 || c == 0x2029
    || c == 0x202F || c == 0x205F || c == 0x3000
  }

  predicate AllSpace(s: string) {
    forall i :: 0 <= i < |s| ==> IsSpace(s[i])
  }

  /** `r` is the run of `s` that starts at `a`. */
  ghost predicate RunAt(s: string, a: int, r: string) {
    0 <= a && a + |r| <= |s| && r == s[a..a + |r|]
  }

  /** `s.lstrip()`: the suffix left after dropping leading whitespace. */
  function StripLeft(s: string): (r: string)
    ensures |r| <= |s| && r == s[|s| - |r|..]
    ensures AllSpace(s[..|s| - |r|])
    ensures r == [] || !IsSpace(r[0])
  {
    if s != [] && IsSpace(s[0]) then
      var r := StripLeft(s[1..]);
      var n := |s| - |r|;
      assert r == s[n..] by { assert s[1..][n - 1..] == s[n..]; }
      assert AllSpace(s[..n]) by {
        forall i | 0 <= i < n ensures IsSpace(s[..n][i]) {
          if i > 0 {
            assert s[..n][i] == s[1..][..n - 1][i - 1];
          }
        }
      }
      r
    else s
  }

  /** `s.rstrip()`: the prefix left after dropping trailing whitespace. */
  function StripRight(s: string): (r: string)
    ensures |r| <= |s| && r == s[..|r|]
    ensures AllSpace(s[|r|..])
    ensures r == [] || !IsSpace(r[|r| - 1])
  {
    if s != [] && IsSpace(s[|s| - 1]) then
      var r := StripRight(s[..|s| - 1]);
      var n := |r|;
      assert r == s[..n] by { assert s[..|s| - 1][..n] == s[..n]; }
      assert AllSpace(s[n..]) by {
        forall i | 0 <= i < |s| - n ensures IsSpace(s[n..][i]) {
          if i < |s| - 1 - n {
            assert s[n..][i] == s[..|s| - 1][n..][i];
          }
        }
      }
      r
    else s
  }

  /** `s.strip()`: the run of `s` between its leading and trailing
      whitespace, which neither starts nor ends with whitespace. */
  function Strip(s: string): (r: string)
    ensures exists a :: RunAt(s, a, r) && AllSpace(s[..a]) && AllSpace(s[a + |r|..])
    ensures r == [] || (!IsSpace(r[0]) && !IsSpace(r[|r| - 1]))
  {
    var left := StripLeft(s);
    var r := StripRight(left);
    var a := |s| - |left|;
    assert left == s[a..] && AllSpace(s[..a]);
    assert r == left[..|r|] && AllSpace(left[|r|..]);
    assert s[a..a + |r|] == r && s[a + |r|..] == left[|r|..];
    assert RunAt(s, a, r);
    r
  }

  /** A string of whitespace strips to the empty string, and a string
      without surrounding whitespace is kept as it is. */
  lemma StripCases(s: string)
    ensures AllSpace(s) ==> Strip(s) == []
    ensures s != [] && !IsSpace(s[0]) && !IsSpace(s[|s| - 1]) ==> Strip(s) == s
  {
    if s != [] && !IsSpace(s[0]) && !IsSpace(s[|s| - 1]) {
      assert StripLeft(s) == s;
    }
  }

  /** Stripping twice is stripping once. */
  lemma StripIdempotent(s: string)
    ensures Strip(Strip(s)) == Strip(s)
  {
    StripCases(Strip(s));
  }

  /** User.get_full_name: first and last name with a space between and
      surrounding whitespace removed, or the address when that leaves
      nothing. */
  function FullName(u: Account): (r: string)
    ensures Strip(u.firstName + " " + u.lastName) != [] ==> r == Strip(u.firstName + " " + u.lastName)
    ensures Strip(u.firstName + " " + u.lastName) == [] ==> r == u.email
  {
    var joined := Strip(u.firstName + " " + u.lastName);
    if joined != [] then joined else u.email
  }

  /** With both names empty the full name is the address; with two
      non-empty names that do not start or end the result with whitespace
      it is the two names with one space between. */
  lemma FullNameCases(u: Account)
    ensures u.firstName == [] && u.lastName == [] ==> FullName(u) == u.email
    ensures u.firstName != [] && u.lastName != [] && !IsSpace(u.firstName[0]) && !IsSpace(u.lastName[|u.lastName| - 1])
            ==> FullName(u) == u.firstName + " " + u.lastName
  {
    var joined := u.firstName + " " + u.lastName;
    if u.firstName == [] && u.lastName == [] {
      assert AllSpace(joined) by {
        assert joined == " ";
        assert IsSpace(' ');
      }
      StripCases(joined);
      assert Strip(joined) == [];
    } else if u.firstName != [] && u.lastName != [] && !IsSpace(u.firstName[0]) && !IsSpace(u.lastName[|u.lastName| - 1]) {
      assert joined != [] && !IsSpace(joined[0]) && !IsSpace(joined[|joined| - 1]) by {
        assert joined[0] == u.firstName[0];
        assert joined[|joined| - 1] == u.lastName[|u.lastName| - 1];
      }
      StripCases(joined);
      assert Strip(joined) == joined;
    }
  }

  /** User.get_short_name: the first name, or the address when it is empty. */
  function ShortName(u: Account): (r: string)
    ensures u.firstName != [] ==> r == u.firstName
    ensures u.firstName == [] ==> r == u.email
  {
    if u.firstName != [] then u.firstName else u.email
  }

  /** User.__str__: the address. */
  function Str(u: Account): (r: string)
    ensures r == u.email
  {
    u.email
  }

  /** A user with an address never shows an empty name, and the string
      forms of two users differ whenever their addresses do. */
  lemma NamesNeverEmpty(u: Account, v: Account)
    requires u.email != []
    ensures FullName(u) != [] && ShortName(u) != [] && Str(u) != []
    ensures u.email != v.email ==> Str(u) != Str(v)
  {
  }
}
