/**
  The identifier sanitizers of the EaaS-to-CAMARA translator
  (src/app/utils/eaas2camara_builder.py, `_sanitize_*`). Each one forces an
  arbitrary string into a grammar of the form ^[A-Za-z][A-Za-z0-9_]{lo,hi}$
  by rewriting it: non-word characters become '_', a letter prefix is added
  when the string does not start with a letter, a suffix pads a short string,
  a long one is cut, and a last-resort prefix is applied if the grammar still
  fails.
 */
module Sanitize {

  predicate IsAsciiLetter(c: char) {
    'A' <= c <= 'Z' || 'a' <= c <= 'z'
  }

  /** The class [A-Za-z0-9_]. */
  predicate IsWordChar(c: char) {
    IsAsciiLetter(c) || '0' <= c <= '9' || c == '_'
  }

  predicate AllWordChars(s: string) {
    forall i :: 0 <= i < |s| ==> IsWordChar(s[i])
  }

  /** `re.match(r'^[A-Za-z]', s)`. */
  predicate StartsWithLetter(s: string) {
    |s| > 0 && IsAsciiLetter(s[0])
  }

  /** The full-match grammar ^[A-Za-z][A-Za-z0-9_]{lo,hi}$. */
  predicate MatchesIdentifier(s: string, lo: nat, hi: nat) {
    1 + lo <= |s| <= 1 + hi && StartsWithLetter(s) && AllWordChars(s)
  }

  /** CAMARA AppManifest.name (and component names): ^[A-Za-z][A-Za-z0-9_]{1,63}$. */
  predicate IsAppName(s: string) {
    MatchesIdentifier(s, 1, 63)
  }

  /** CAMARA AppProvider: ^[A-Za-z][A-Za-z0-9_]{7,63}$. */
  predicate IsAppProvider(s: string) {
    MatchesIdentifier(s, 7, 63)
  }

  /** CAMARA NetworkInterface.interfaceId: ^[A-Za-z][A-Za-z0-9_]{3,31}$. */
  predicate IsInterfaceId(s: string) {
    MatchesIdentifier(s, 3, 31)
  }

  /** `re.sub(r'[^A-Za-z0-9_]', '_', s)`: every character outside the word class becomes '_'. */
  function ReplaceNonWord(s: string): (r: string)
    ensures |r| == |s| && AllWordChars(r)
    ensures forall i :: 0 <= i < |s| && IsWordChar(s[i]) ==> r[i] == s[i]
    ensures forall i :: 0 <= i < |s| && !IsWordChar(s[i]) ==> r[i] == '_'
  {
    if s == [] then []
    else
      var last := s[|s| - 1];
      ReplaceNonWord(s[..|s| - 1]) + [if IsWordChar(last) then last else '_']
  }

  /** Python's `s[:n]`. */
  function Take(s: string, n: nat): (r: string)
    ensures |r| == if |s| <= n then |s| else n
    ensures r == s[..|r|]
  {
    if |s| <= n then s else s[..n]
  }

  /** A letter-led word followed by word characters is again a letter-led word. */
  lemma PrefixedWord(prefix: string, rest: string)
    requires StartsWithLetter(prefix) && AllWordChars(prefix) && AllWordChars(rest)
    ensures StartsWithLetter(prefix + rest) && AllWordChars(prefix + rest)
  {
    assert forall i :: 0 <= i < |prefix + rest| ==>
      (prefix + rest)[i] == if i < |prefix| then prefix[i] else rest[i - |prefix|];
  }

  /** `_sanitize_app_name`, eaas2camara_builder.py:10-34. */
  function SanitizeAppName(raw: string): (s: string)
    ensures IsAppName(s)
    ensures raw == "" ==> s == "App_1"
  {
    if raw == "" then "App_1"
    else
      var s0 := ReplaceNonWord(raw);
      var s1 := if StartsWithLetter(s0) then s0 else "A" + s0;
      var s2 := if |s1| < 2 then s1 + "_1" else s1;
      var s3 := Take(s2, 64);
      if IsAppName(s3) then s3
      else
        var rest := Take(s3, 60);
        PrefixedWord("App_", rest);
        "App_" + rest
  }

  /** `_sanitize_app_provider`, eaas2camara_builder.py:37-60. */
  function SanitizeAppProvider(raw: string): (s: string)
    ensures IsAppProvider(s)
  {
    var raw' := if raw == "" then "Provider_00000000" else raw;
    var s0 := ReplaceNonWord(raw');
    var s1 := if StartsWithLetter(s0) then s0 else "P_" + s0;
    var s2 := if |s1| < 8 then s1 + "_provider" else s1;
    var s3 := Take(s2, 64);
    if IsAppProvider(s3) then s3
    else
      var rest := Take(ReplaceNonWord(s3), 55);
      PrefixedWord("Provider_", rest);
      "Provider_" + rest
  }

  /** `_sanitize_interface_id`, eaas2camara_builder.py:63-83. */
  function SanitizeInterfaceId(raw: string): (s: string)
    ensures IsInterfaceId(s)
  {
    var raw' := if raw == "" then "eth0" else raw;
    var s0 := ReplaceNonWord(raw');
    var s1 := if StartsWithLetter(s0) then s0 else "i_" + s0;
    var s2 := if |s1| < 4 then s1 + "_eth" else s1;
    var s3 := Take(s2, 32);
    if IsInterfaceId(s3) then s3
    else
      var rest := Take(s3, 30);
      PrefixedWord("if_", rest);
      "if_" + rest
  }

  /** `_sanitize_component_name`, eaas2camara_builder.py:86-88: the app-name rule. */
  function SanitizeComponentName(raw: string): (s: string)
    ensures IsAppName(s)
  {
    SanitizeAppName(raw)
  }

  /** The substitution is the identity on strings made of word characters only. */
  lemma {:induction false} ReplaceNonWordKeepsWordStrings(s: string)
    requires AllWordChars(s)
    ensures ReplaceNonWord(s) == s
  {
    var r := ReplaceNonWord(s);
    assert forall i :: 0 <= i < |s| ==> r[i] == s[i];
  }

  /** A name that already satisfies the app-name grammar comes back unchanged. */
  lemma SanitizeAppNameKeepsValid(raw: string)
    requires IsAppName(raw)
    ensures SanitizeAppName(raw) == raw
  {
    ReplaceNonWordKeepsWordStrings(raw);
  }

  /** Sanitizing an app name twice is the same as sanitizing it once. */
  lemma SanitizeAppNameIdempotent(raw: string)
    ensures SanitizeAppName(SanitizeAppName(raw)) == SanitizeAppName(raw)
  {
    SanitizeAppNameKeepsValid(SanitizeAppName(raw));
  }

  /** A provider that already satisfies the provider grammar comes back unchanged. */
  lemma SanitizeAppProviderKeepsValid(raw: string)
    requires IsAppProvider(raw)
    ensures SanitizeAppProvider(raw) == raw
  {
    ReplaceNonWordKeepsWordStrings(raw);
  }

  lemma SanitizeAppProviderIdempotent(raw: string)
    ensures SanitizeAppProvider(SanitizeAppProvider(raw)) == SanitizeAppProvider(raw)
  {
    SanitizeAppProviderKeepsValid(SanitizeAppProvider(raw));
  }

  /** The empty provider becomes the fixed placeholder, which is already valid. */
  lemma SanitizeAppProviderEmpty()
    ensures SanitizeAppProvider("") == "Provider_00000000"
  {
    SanitizeAppProviderKeepsValid("Provider_00000000");
  }

  /** An interface id that already satisfies its grammar comes back unchanged. */
  lemma SanitizeInterfaceIdKeepsValid(raw: string)
    requires IsInterfaceId(raw)
    ensures SanitizeInterfaceId(raw) == raw
  {
    ReplaceNonWordKeepsWordStrings(raw);
  }

  lemma SanitizeInterfaceIdIdempotent(raw: string)
    ensures SanitizeInterfaceId(SanitizeInterfaceId(raw)) == SanitizeInterfaceId(raw)
  {
    SanitizeInterfaceIdKeepsValid(SanitizeInterfaceId(raw));
  }

  /** The empty interface id becomes "eth0". */
  lemma SanitizeInterfaceIdEmpty()
    ensures SanitizeInterfaceId("") == "eth0"
  {
    ReplaceNonWordKeepsWordStrings("eth0");
  }
}
