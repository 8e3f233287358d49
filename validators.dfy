/**
 * The two namespace validators of the configuration parser: `isValidPrefix`
 * (the regular expression `^\w+$`) and `isValidHttpURI` (a non-empty check
 * followed by two `startsWith` tests), with the string helpers they need.
 */
module Validators {

  /** `s.startsWith(p)`: sequence prefix. */
  predicate StartsWith(s: string, p: string) {
    p <= s
  }

  /** `s.endsWith(suffix)`. */
  predicate EndsWith(s: string, suffix: string) {
    |suffix| <= |s| && s[|s| - |suffix|..] == suffix
  }

  /** The class `\w` of a JavaScript regular expression without the `u` or `i` flag: `[A-Za-z0-9_]`. */
  predicate IsWordChar(c: char) {
    ('A' <= c <= 'Z') || ('a' <= c <= 'z') || ('0' <= c <= '9') || c == '_'
  }

  /**
   * `isValidPrefix(prefix)`: does `^\w+$` match? The pattern is read as the
   * regular expression engine reads it: one word character, then either the
   * end of the input (`$` without the `m` flag matches only there) or
   * another match of `\w+$`.
   */
  predicate IsValidPrefix(prefix: string)
    decreases |prefix|
  {
    |prefix| > 0 && IsWordChar(prefix[0]) && (|prefix| == 1 || IsValidPrefix(prefix[1..]))
  }

  /** A prefix is valid exactly when it is non-empty and every character is a word character. */
  lemma {:induction false} IsValidPrefixIff(prefix: string)
    ensures IsValidPrefix(prefix) <==>
              |prefix| > 0 && forall i :: 0 <= i < |prefix| ==> IsWordChar(prefix[i])
    decreases |prefix|
  {
    if |prefix| > 1 {
      var tail := prefix[1..];
      IsValidPrefixIff(tail);
      assert forall i :: 1 <= i < |prefix| ==> prefix[i] == tail[i - 1];
      if forall i :: 0 <= i < |prefix| ==> IsWordChar(prefix[i]) {
        assert forall j :: 0 <= j < |tail| ==> IsWordChar(tail[j]) by {
          forall j | 0 <= j < |tail| ensures IsWordChar(tail[j]) {
            assert tail[j] == prefix[j + 1];
          }
        }
      }
    }
  }

  /** The empty string and any string holding a character outside `[A-Za-z0-9_]` (a space, `:`, `-`, `.`, ...) are rejected. */
  lemma {:induction false} NonWordCharRejected(prefix: string, i: int)
    requires 0 <= i < |prefix| && !IsWordChar(prefix[i])
    ensures !IsValidPrefix(prefix) && !IsValidPrefix("")
  {
    IsValidPrefixIff(prefix);
  }

  /**
   * `isValidHttpURI(uri)` as written: `uri && (uri.startsWith('http') || uri.startsWith('https'))`,
   * where the empty string is falsy.
   */
  predicate IsValidHttpUri(uri: string) {
    |uri| > 0 && (StartsWith(uri, "http") || StartsWith(uri, "https"))
  }

  /** Any string that starts with "https" also starts with "http". */
  lemma {:induction false} HttpsStartsWithHttp(uri: string)
    requires StartsWith(uri, "https")
    ensures StartsWith(uri, "http")
  {
    assert uri[..4] == "https"[..4] == "http";
  }

  /**
   * The validator accepts exactly the strings that start with "http": the
   * "https" test and the non-empty test add nothing.
   */
  lemma {:induction false} IsValidHttpUriIff(uri: string)
    ensures IsValidHttpUri(uri) <==> StartsWith(uri, "http")
    ensures !IsValidHttpUri("")
  {
    if StartsWith(uri, "https") {
      HttpsStartsWithHttp(uri);
    }
  }

  /** A name that ends in "config.json" also ends in ".json". */
  lemma {:induction false} ConfigJsonEndsWithJson(name: string)
    requires EndsWith(name, "config.json")
    ensures EndsWith(name, ".json")
  {
    var n := |name|;
    assert name[n - 5..] == name[n - 11..][6..] == "config.json"[6..] == ".json";
  }
}
