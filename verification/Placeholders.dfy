/**
 SQL placeholders: the regular-expression rewrite of backend/app/mount/pg_adapter.py and the plain
 substitution of backend/app/orch/ops_bridge.py.
 */
module Placeholders {

  predicate IsQuote(c: char) {
    c == '\'' || c == '"'
  }

  /** Index of the first `c`, or the length. */
  function FirstOf(s: string, c: char): (i: nat)
    ensures i <= |s|
    ensures i < |s| ==> s[i] == c
    ensures forall j :: 0 <= j < i ==> s[j] != c
  {
    if s == "" || s[0] == c then 0 else 1 + FirstOf(s[1..], c)
  }

  /** Length of the token at the start: a whole quoted text, or one character. */
  function TokenLength(s: string): (n: nat)
    requires s != ""
    ensures 1 <= n <= |s|
  {
    if IsQuote(s[0]) && FirstOf(s[1..], s[0]) < |s| - 1 then FirstOf(s[1..], s[0]) + 2 else 1
  }

  /** `_rewrite_placeholders`: token by token. */
  function Rewrite(s: string): string {
    if s == "" then ""
    else
      var n := TokenLength(s);
      (if s[..n] == "?" then "%s" else s[..n]) + Rewrite(s[n..])
  }

  /** The bridge replaces every question mark. */
  function Substitute(s: string): string {
    if s == "" then "" else (if s[0] == '?' then "%s" else [s[0]]) + Substitute(s[1..])
  }

  // ------------------------------------------------------------ the same, one character at a time

  /** Outside quoted text, or inside a text that ends with the given quote. */
  datatype Where = Outside | Inside(quote: char)

  /** A quote opens a text only when it occurs again. */
  function After(w: Where, s: string): Where
    requires s != ""
  {
    match w
    case Inside(q) => if s[0] == q then Outside else w
    case Outside => if s[0] in {'\'', '"'} && s[0] in s[1..] then Inside(s[0]) else Outside
  }

  /** Every question mark outside quoted text becomes %s; every other character stays. */
  function ByCharacter(w: Where, s: string): string
    decreases |s|
  {
    if s == "" then ""
    else (if w.Outside? && s[0] == '?' then "%s" else [s[0]]) + ByCharacter(After(w, s), s[1..])
  }

  /** Question marks inside quoted text. */
  function Protected(w: Where, s: string): nat
    decreases |s|
  {
    if s == "" then 0 else (if w.Inside? && s[0] == '?' then 1 else 0) + Protected(After(w, s), s[1..])
  }

  lemma {:induction false} InsideIsCopied(s: string, q: char)
    requires FirstOf(s, q) < |s|
    ensures var n := FirstOf(s, q) + 1; ByCharacter(Inside(q), s) == s[..n] + ByCharacter(Outside, s[n..])
  {
    var n := FirstOf(s, q) + 1;
    hide IsQuote;
    if s[0] == q {
      assert n == 1 && s[..1] == [q];
    } else {
      InsideIsCopied(s[1..], q);
      assert s[..n] == [s[0]] + s[1..][..n - 1];
      assert s[1..][n - 1..] == s[n..];
    }
  }

  lemma FirstOfMember(s: string, c: char)
    ensures FirstOf(s, c) < |s| <==> c in s
  {
  }

  lemma QuotedByCharacter(s: string, n: nat)
    requires s != "" && IsQuote(s[0]) && FirstOf(s[1..], s[0]) < |s| - 1 && n == FirstOf(s[1..], s[0]) + 2
    ensures ByCharacter(Outside, s) == s[..n] + ByCharacter(Outside, s[n..])
  {
    FirstOfMember(s[1..], s[0]);
    assert ByCharacter(Outside, s) == [s[0]] + ByCharacter(Inside(s[0]), s[1..]);
    hide ByCharacter;
    InsideIsCopied(s[1..], s[0]);
    hide *;
    Regroup(s, n, ByCharacter(Outside, s[n..]));
    assert s[1..][n - 1..] == s[n..];
  }

  lemma Regroup(s: string, n: nat, tail: string)
    requires 1 <= n <= |s|
    ensures [s[0]] + (s[1..][..n - 1] + tail) == s[..n] + tail
  {
    assert s[..n] == [s[0]] + s[1..][..n - 1];
  }

  lemma TokenByCharacter(s: string)
    requires s != ""
    ensures var n := TokenLength(s);
      ByCharacter(Outside, s) == (if s[..n] == "?" then "%s" else s[..n]) + ByCharacter(Outside, s[n..])
  {
    var n := TokenLength(s);
    assert s[..n][0] == s[0];
    FirstOfMember(s[1..], s[0]);
    if n > 1 {
      hide ByCharacter;
      QuotedByCharacter(s, n);
    } else {
      assert s[..1] == [s[0]];
    }
  }

  /** The token rewrite replaces exactly the question marks outside matched quotes. */
  lemma {:induction false} RewriteIsByCharacter(s: string)
    ensures Rewrite(s) == ByCharacter(Outside, s)
    decreases |s|
  {
    if s != "" {
      TokenByCharacter(s);
      RewriteIsByCharacter(s[TokenLength(s)..]);
      hide ByCharacter, TokenLength;
    }
  }

  lemma {:induction false} LengthOfParts(w: Where, s: string)
    ensures |ByCharacter(w, s)| + Protected(w, s) == |Substitute(s)|
    decreases |s|
  {
    if s != "" {
      LengthOfParts(After(w, s), s[1..]);
    }
  }

  lemma {:induction false} UnprotectedAgrees(w: Where, s: string)
    requires Protected(w, s) == 0
    ensures ByCharacter(w, s) == Substitute(s)
    decreases |s|
  {
    if s != "" {
      UnprotectedAgrees(After(w, s), s[1..]);
    }
  }

  /** The bridge and the adapter agree exactly on SQL without a question mark in quoted text. */
  lemma AgreeIff(s: string)
    ensures Rewrite(s) == Substitute(s) <==> Protected(Outside, s) == 0
  {
    RewriteIsByCharacter(s);
    LengthOfParts(Outside, s);
    if Protected(Outside, s) == 0 {
      UnprotectedAgrees(Outside, s);
    }
  }

  /** The rewrite brings in no quotes. */
  lemma {:induction false} NoNewQuotes(s: string, c: char)
    requires IsQuote(c) && c !in s
    ensures c !in Rewrite(s)
    decreases |s|
  {
    if s != "" {
      var n := TokenLength(s);
      NoNewQuotes(s[n..], c);
      assert s == s[..n] + s[n..];
    }
  }

  lemma TokenCopied(token: string, rest: string)
    requires |token| >= 2 && IsQuote(token[0]) && FirstOf(token[1..], token[0]) == |token| - 2
    ensures Rewrite(token + rest) == token + Rewrite(rest)
  {
    var s := token + rest;
    assert s[1..] == token[1..] + rest;
    FirstStays(token[1..], rest, token[0]);
    assert s[..|token|] == token && s[|token|..] == rest;
  }

  lemma {:induction false} FirstStays(s: string, rest: string, c: char)
    requires FirstOf(s, c) < |s|
    ensures FirstOf(s + rest, c) == FirstOf(s, c)
  {
    if s[0] != c {
      assert (s + rest)[1..] == s[1..] + rest;
      FirstStays(s[1..], rest, c);
    }
  }

  lemma CharacterCopied(c: char, rest: string)
    requires c != '?' && (IsQuote(c) ==> c !in rest)
    ensures Rewrite([c] + rest) == [c] + Rewrite(rest)
  {
    var s := [c] + rest;
    assert s[1..] == rest && s[..1] == [c];
    FirstOfMember(rest, c);
  }

  /** Rewriting twice changes nothing more. */
  lemma {:induction false} RewriteIsIdempotent(s: string)
    ensures Rewrite(Rewrite(s)) == Rewrite(s)
    decreases |s|
  {
    if s != "" {
      var n := TokenLength(s);
      var rest := Rewrite(s[n..]);
      RewriteIsIdempotent(s[n..]);
      if s[..n] == "?" {
        CharacterCopied('s', rest);
        CharacterCopied('%', "s" + rest);
        assert "%s" + rest == ['%'] + ("s" + rest);
      } else if n > 1 {
        var token := s[..n];
        assert s[1..] == token[1..] + s[n..];
        FirstWithin(token[1..], s[n..], s[0]);
        TokenCopied(token, rest);
      } else {
        assert s[..1] == [s[0]];
        FirstOfMember(s[1..], s[0]);
        if IsQuote(s[0]) {
          NoNewQuotes(s[1..], s[0]);
        }
        CharacterCopied(s[0], rest);
      }
    }
  }

  lemma {:induction false} FirstWithin(s: string, rest: string, c: char)
    requires FirstOf(s + rest, c) < |s|
    ensures FirstOf(s, c) == FirstOf(s + rest, c)
  {
    assert (s + rest)[0] == s[0];
    if s[0] != c {
      assert (s + rest)[1..] == s[1..] + rest;
      FirstWithin(s[1..], rest, c);
    }
  }
}
