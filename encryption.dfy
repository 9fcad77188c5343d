/**
 * The two pure helpers of the encryption utilities: the HTML-escaping
 * sanitiser and the encryption-key length check.
 */
module Encryption {
  import opened Json
  import opened Http

  /** The characters the sanitiser rewrites: `/[<>"'&]/g` */
  predicate Special(c: char)
  {
    c == '<' || c == '>' || c == '"' || c == '\'' || c == '&'
  }

  /** The replacement for one character: its entity from the escape map, or itself */
  function EscapeChar(c: char): (e: string)
    ensures Special(c) ==> |e| >= 4 && e[0] == '&' && e[|e| - 1] == ';'
    ensures !Special(c) ==> e == [c]
  {
    match c
    case '<' => "&lt;"
    case '>' => "&gt;"
    case '"' => "&quot;"
    case '\'' => "&#x27;"
    case '&' => "&amp;"
    case _ => [c]
  }

  /** No `<`, `>`, `"` or `'` occurs. */
  predicate Inert(s: string)
  {
    forall i :: 0 <= i < |s| ==> s[i] != '<' && s[i] != '>' && s[i] != '"' && s[i] != '\''
  }

  /**
   * `sanitizeInput(input)`: every character is replaced once, left to right,
   * by its escape; the entities inserted are not escaped again.
   */
  function SanitizeInput(input: string): (r: string)
    ensures Inert(r)
    ensures |r| >= |input|
    decreases |input|
  {
    if input == [] then "" else EscapeChar(input[0]) + SanitizeInput(input[1..])
  }

  /** Sanitising distributes over concatenation. */
  lemma {:induction false} SanitizeAppend(a: string, b: string)
    ensures SanitizeInput(a + b) == SanitizeInput(a) + SanitizeInput(b)
    decreases |a|
  {
    if a == [] {
      assert a + b == b;
    } else {
      assert (a + b)[1..] == a[1..] + b;
      SanitizeAppend(a[1..], b);
    }
  }

  /** A string without any of the five characters comes back unchanged. */
  lemma {:induction false} SanitizeClean(s: string)
    requires forall i :: 0 <= i < |s| ==> !Special(s[i])
    ensures SanitizeInput(s) == s
    decreases |s|
  {
    if s != [] {
      SanitizeClean(s[1..]);
      assert [s[0]] + s[1..] == s;
    }
  }

  /** The five characters map to their entities, any other character to itself. */
  lemma EscapeTable()
    ensures SanitizeInput("<") == "&lt;" && SanitizeInput(">") == "&gt;"
    ensures SanitizeInput("\"") == "&quot;" && SanitizeInput("'") == "&#x27;"
    ensures SanitizeInput("&") == "&amp;"
    ensures forall c :: !Special(c) ==> SanitizeInput([c]) == [c]
  {
    assert forall c :: SanitizeInput([c]) == EscapeChar(c) + SanitizeInput([]) by {
      forall c ensures SanitizeInput([c]) == EscapeChar(c) + SanitizeInput([]) {
        assert [c][1..] == [];
      }
    }
  }

  /** Decodes the five entities, the partner of `SanitizeInput` */
  function Unescape(s: string): string
    decreases |s|
  {
    if s == [] then ""
    else if s[0] != '&' then [s[0]] + Unescape(s[1..])
    else if |s| >= 4 && s[..4] == "&lt;" then "<" + Unescape(s[4..])
    else if |s| >= 4 && s[..4] == "&gt;" then ">" + Unescape(s[4..])
    else if |s| >= 5 && s[..5] == "&amp;" then "&" + Unescape(s[5..])
    else if |s| >= 6 && s[..6] == "&quot;" then "\"" + Unescape(s[6..])
    else if |s| >= 6 && s[..6] == "&#x27;" then "'" + Unescape(s[6..])
    else "&" + Unescape(s[1..])
  }

  /** Decoding one escaped character followed by more text */
  lemma UnescapeStep(c: char, rest: string)
    ensures Unescape(EscapeChar(c) + rest) == [c] + Unescape(rest)
  {
    var e := EscapeChar(c);
    var s := e + rest;
    assert s[..|e|] == e;
    assert s[|e|..] == rest;
    if c == '<' || c == '>' {
      assert s[..4] == e;
    } else if c == '&' {
      assert s[..5] == e && s[5..] == rest;
      assert s[..4] != "&lt;" && s[..4] != "&gt;" by { assert s[1] == 'a'; }
    } else if c == '"' || c == '\'' {
      assert s[..6] == e && s[6..] == rest;
      assert s[..4] != "&lt;" && s[..4] != "&gt;" && s[..5] != "&amp;" by { assert s[1] == e[1] != 'l'; }
    } else {
      assert s[1..] == rest;
    }
  }

  /** Sanitising loses nothing: decoding the entities gives back the input. */
  lemma {:induction false} UnescapeSanitize(s: string)
    ensures Unescape(SanitizeInput(s)) == s
    decreases |s|
  {
    if s != [] {
      UnescapeStep(s[0], SanitizeInput(s[1..]));
      UnescapeSanitize(s[1..]);
      assert [s[0]] + s[1..] == s;
    }
  }

  /** The UTF-16 code units that encode `c`: two for a character above U+FFFF */
  function Utf16Units(c: char): (n: nat)
    ensures n == 1 || n == 2
    ensures n == 2 <==> c as int > 0xFFFF
  {
    if c as int > 0xFFFF then 2 else 1
  }

  /** `s.length`: JavaScript measures a string in UTF-16 code units. */
  function Utf16Length(s: string): (n: nat)
    ensures |s| <= n <= 2 * |s|
    decreases |s|
  {
    if s == [] then 0 else Utf16Units(s[0]) + Utf16Length(s[1..])
  }

  /** A string without characters above U+FFFF has one code unit per character. */
  lemma {:induction false} Utf16LengthBasic(s: string)
    requires forall i :: 0 <= i < |s| ==> s[i] as int <= 0xFFFF
    ensures Utf16Length(s) == |s|
    decreases |s|
  {
    if s != [] {
      Utf16LengthBasic(s[1..]);
    }
  }

  /** A string of characters above U+FFFF has two code units per character. */
  lemma {:induction false} Utf16LengthAstral(s: string)
    requires forall i :: 0 <= i < |s| ==> s[i] as int > 0xFFFF
    ensures Utf16Length(s) == 2 * |s|
    decreases |s|
  {
    if s != [] {
      Utf16LengthAstral(s[1..]);
    }
  }

  /** `validateEncryptionKey(key)`: `key && key.length >= 32`, so "" for the empty key */
  function ValidateEncryptionKey(key: string): (r: Value)
    ensures r == Str("") <==> key == ""
    ensures key != "" ==> r == Bool(Utf16Length(key) >= 32)
  {
    if key == "" then Str("") else Bool(Utf16Length(key) >= 32)
  }

  /** A key is accepted exactly when it is at least 32 UTF-16 code units long. */
  lemma KeyAcceptedIffLong(key: string)
    ensures TruthyValue(ValidateEncryptionKey(key)) <==> Utf16Length(key) >= 32
  {
  }

  /**
   * A key without characters above U+FFFF is accepted exactly when it has
   * at least 32 characters. A key of 16 characters above U+FFFF (emoji, say)
   * is accepted.
   */
  lemma KeyLengthInCodeUnits(key: string)
    ensures (forall i :: 0 <= i < |key| ==> key[i] as int <= 0xFFFF) ==>
      (TruthyValue(ValidateEncryptionKey(key)) <==> |key| >= 32)
    ensures ((forall i :: 0 <= i < |key| ==> key[i] as int > 0xFFFF) && |key| == 16) ==>
      TruthyValue(ValidateEncryptionKey(key))
  {
    if forall i :: 0 <= i < |key| ==> key[i] as int <= 0xFFFF {
      Utf16LengthBasic(key);
    }
    if forall i :: 0 <= i < |key| ==> key[i] as int > 0xFFFF {
      Utf16LengthAstral(key);
    }
  }
}
