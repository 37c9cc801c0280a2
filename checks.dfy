/**
 * The duplicate checks of registration (Register-User/utils/auth/checks.js):
 * each builds a provider filter with the value quoted and its double quotes
 * escaped, asks for one matching account, and fails open on an error. The
 * provider's `listUsers` is a parameter from filter string to outcome.
 */
module Checks {
  import opened Text
  import opened Http

  /** `s.replace(/"/g, '\\"')`: a backslash before every double quote. */
  function Escape(s: string): (r: string)
    ensures |r| == |s| + Count(s, '"')
    ensures '"' !in s ==> r == s
    ensures r != [] ==> r[0] != '"'
  {
    if s == [] then []
    else (if s[0] == '"' then ['\\', '"'] else [s[0]]) + Escape(s[1..])
  }

  /** Every double quote of an escaped string directly follows a backslash. */
  lemma {:induction false} EscapedQuotes(s: string)
    ensures forall i :: 0 <= i < |Escape(s)| && Escape(s)[i] == '"' ==> i > 0 && Escape(s)[i - 1] == '\\'
  {
    if s != [] {
      EscapedQuotes(s[1..]);
      var h := if s[0] == '"' then ['\\', '"'] else [s[0]];
      var t := Escape(s[1..]);
      assert Escape(s) == h + t;
      forall i | 0 <= i < |h + t| && (h + t)[i] == '"'
        ensures i > 0 && (h + t)[i - 1] == '\\'
      {
        if i >= |h| {
          assert (h + t)[i] == t[i - |h|];
          if i - |h| > 0 {
            assert (h + t)[i - 1] == t[i - |h| - 1];
          }
        }
      }
    }
  }

  /** Drops the backslash in front of each double quote. */
  function Unescape(r: string): (s: string)
    ensures |s| <= |r|
  {
    if r == [] then []
    else if |r| >= 2 && r[0] == '\\' && r[1] == '"' then ['"'] + Unescape(r[2..])
    else [r[0]] + Unescape(r[1..])
  }

  /** Escaping loses nothing: unescaping gives the original string back. */
  lemma {:induction false} EscapeRoundTrip(s: string)
    ensures Unescape(Escape(s)) == s
  {
    if s != [] {
      var t := Escape(s[1..]);
      EscapeRoundTrip(s[1..]);
      if s[0] == '"' {
        assert Escape(s) == ['\\', '"'] + t;
        assert (['\\', '"'] + t)[2..] == t;
      } else {
        assert Escape(s) == [s[0]] + t;
        assert ([s[0]] + t)[1..] == t;
        assert t != [] ==> ([s[0]] + t)[1] == t[0];
      }
    }
  }

  /** Line 5: `email = "<escaped>"`. */
  function EmailFilter(email: string): string {
    "email = \"" + Escape(email) + "\""
  }

  /** Line 20: `username = "<escaped>"`. */
  function UsernameFilter(username: string): string {
    "username = \"" + Escape(username) + "\""
  }

  /**
   * A filter is the attribute name, ` = "`, the escaped value and a closing
   * quote, and its quoted part reads back as the value it was built from.
   */
  lemma FilterQuotesValue(email: string, username: string)
    ensures var f := EmailFilter(email); f[..9] == "email = \"" && f[|f| - 1] == '"' && Unescape(f[9..|f| - 1]) == email
    ensures var g := UsernameFilter(username);
      g[..12] == "username = \"" && g[|g| - 1] == '"' && Unescape(g[12..|g| - 1]) == username
  {
    var f := EmailFilter(email);
    assert f[9..|f| - 1] == Escape(email);
    var g := UsernameFilter(username);
    assert g[12..|g| - 1] == Escape(username);
    EscapeRoundTrip(email);
    EscapeRoundTrip(username);
  }

  /** `result.Users && result.Users.length > 0`, false when the listing throws. */
  function ListedSomeone(l: Listing): (r: bool)
    ensures r <==> l.Ok? && l.value.Some? && |l.value.value| > 0
    ensures l.Err? ==> !r
  {
    FirstListed(l).Some?
  }

  /** checkForDuplicateEmail (lines 1-14). */
  function CheckForDuplicateEmail(email: string, listUsers: string -> Listing): (r: bool)
    ensures r <==> FirstListed(listUsers(EmailFilter(email))).Some?
  {
    ListedSomeone(listUsers(EmailFilter(email)))
  }

  /** checkForDuplicateUsername (lines 16-29). */
  function CheckForDuplicateUsername(username: string, listUsers: string -> Listing): (r: bool)
    ensures r <==> FirstListed(listUsers(UsernameFilter(username))).Some?
  {
    ListedSomeone(listUsers(UsernameFilter(username)))
  }

  /** A provider error counts as "not in use": the checks fail open. */
  lemma FailOpen(email: string, username: string, listUsers: string -> Listing)
    requires listUsers(EmailFilter(email)).Err? && listUsers(UsernameFilter(username)).Err?
    ensures !CheckForDuplicateEmail(email, listUsers) && !CheckForDuplicateUsername(username, listUsers)
  {
  }
}
