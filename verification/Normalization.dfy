/** `normalize_missing_fields` of backend/app/case_intake/normalization.py. */
module Normalization {

  const UNKNOWN := "additional_information"

  const SAFE_CODES := {
    "collateral_document", "collateral_valuation", "employment_proof", "financial_statements",
    "financial_statements_2025", "identity_document", "income_proof", "internal_identity_mapping",
    "legal_document", "residence_proof", "tax_return"
  }

  /** Every code a list may hold, in the order of their text. */
  const IN_ORDER: seq<string> := [
    UNKNOWN,
    "collateral_document", "collateral_valuation", "employment_proof", "financial_statements",
    "financial_statements_2025", "identity_document", "income_proof", "internal_identity_mapping",
    "legal_document", "residence_proof", "tax_return"
  ]

  /** The characters that str.strip removes. */
  predicate IsSpace(c: char) {
    '\t' <= c <= '\r' || '\U{1c}' <= c <= ' ' || c == '\U{85}' || c == '\U{a0}' || c == '\U{1680}'
    || '\U{2000}' <= c <= '\U{200a}' || c == '\U{2028}' || c == '\U{2029}' || c == '\U{202f}'
    || c == '\U{205f}' || c == '\U{3000}'
  }

  function Strip(s: string): string {
    if s == "" then s
    else if IsSpace(s[0]) then Strip(s[1..])
    else if IsSpace(s[|s| - 1]) then Strip(s[..|s| - 1])
    else s
  }

  function Code(raw: string): string {
    if Strip(raw) in SAFE_CODES then Strip(raw) else UNKNOWN
  }

  function Codes(values: seq<string>): set<string> {
    set i | 0 <= i < |values| :: Code(values[i])
  }

  /** The members of `codes` among the first `n` codes, in order. */
  function Sorted(codes: set<string>, n: nat): seq<string>
    requires n <= |IN_ORDER|
  {
    if n == 0 then []
    else Sorted(codes, n - 1) + (if IN_ORDER[n - 1] in codes then [IN_ORDER[n - 1]] else [])
  }

  function Normalize(values: seq<string>): seq<string> {
    Sorted(Codes(values), |IN_ORDER|)
  }

  /** The loop: each value adds a code to a set, which is sorted at the end. */
  method NormalizeMissingFields(values: seq<string>) returns (codes: seq<string>)
    ensures codes == Normalize(values)
  {
    var normalized: set<string> := {};
    for i := 0 to |values|
      invariant normalized == Codes(values[..i])
    {
      var code := Strip(values[i]);
      CodesAppend(values, i);
      if code in SAFE_CODES {
        normalized := normalized + {code};
      } else {
        normalized := normalized + {UNKNOWN};
      }
    }
    assert values[..|values|] == values;
    codes := Sorted(normalized, |IN_ORDER|);
  }

  lemma CodesAppend(values: seq<string>, i: nat)
    requires i < |values|
    ensures Codes(values[..i + 1]) == Codes(values[..i]) + {Code(values[i])}
  {
    hide Code;
    var a, b := values[..i], values[..i + 1];
    forall c | c in Codes(b) ensures c in Codes(a) + {Code(values[i])} {
      var j :| 0 <= j < |b| && c == Code(b[j]);
      assert j < i ==> a[j] == b[j];
    }
    forall c | c in Codes(a) ensures c in Codes(b) {
      var j :| 0 <= j < |a| && c == Code(a[j]);
      assert b[j] == a[j];
    }
    assert b[i] == values[i];
  }

  // ------------------------------------------------------------ the order of the codes

  /** Text order: at the first difference the smaller character comes first, a proper prefix before all. */
  ghost predicate Before(a: string, b: string) {
    exists i: nat :: DiffersAt(a, b, i)
  }

  predicate DiffersAt(a: string, b: string, i: nat) {
    i <= |a| && i < |b| && a[..i] == b[..i] && (i == |a| || a[i] < b[i])
  }

  ghost predicate Ascending(s: seq<string>) {
    forall i, j :: 0 <= i < j < |s| ==> Before(s[i], s[j])
  }

  lemma BeforeIsTransitive(a: string, b: string, c: string)
    requires Before(a, b) && Before(b, c)
    ensures Before(a, c)
  {
    var i: nat :| DiffersAt(a, b, i);
    var j: nat :| DiffersAt(b, c, j);
    var m := if i <= j then i else j;
    assert a[..m] == a[..i][..m] == b[..m] == b[..j][..m] == c[..m];
    if i < j {
      assert b[..j][i] == c[..j][i];
    } else if j < i {
      assert a[..i][j] == b[..i][j];
    }
    assert DiffersAt(a, c, m);
  }

  lemma ListIsAscending()
    ensures Ascending(IN_ORDER)
  {
    var at := [0, 11, 0, 0, 20, 0, 1, 2, 0, 0, 0];
    forall k | 0 <= k < |IN_ORDER| - 1 ensures Before(IN_ORDER[k], IN_ORDER[k + 1]) {
      assert DiffersAt(IN_ORDER[k], IN_ORDER[k + 1], at[k]);
    }
    forall i, j | 0 <= i < j < |IN_ORDER| ensures Before(IN_ORDER[i], IN_ORDER[j]) {
      NextToAny(i, j);
    }
  }

  lemma {:induction false} NextToAny(i: nat, j: nat)
    requires i < j < |IN_ORDER|
    requires forall k :: 0 <= k < |IN_ORDER| - 1 ==> Before(IN_ORDER[k], IN_ORDER[k + 1])
    ensures Before(IN_ORDER[i], IN_ORDER[j])
    decreases j - i
  {
    hide Before;
    assert Before(IN_ORDER[j - 1], IN_ORDER[j - 1 + 1]);
    if i < j - 1 {
      NextToAny(i, j - 1);
      BeforeIsTransitive(IN_ORDER[i], IN_ORDER[j - 1], IN_ORDER[j]);
    }
  }

  lemma {:induction false} SortedHolds(codes: set<string>, n: nat)
    requires n <= |IN_ORDER| && Ascending(IN_ORDER)
    ensures forall c :: c in Sorted(codes, n) <==> c in codes && c in IN_ORDER[..n]
    ensures Ascending(Sorted(codes, n))
  {
    hide Before;
    if n > 0 {
      SortedHolds(codes, n - 1);
      assert IN_ORDER[..n] == IN_ORDER[..n - 1] + [IN_ORDER[n - 1]];
      var init := Sorted(codes, n - 1);
      forall i | 0 <= i < |init| ensures Before(init[i], IN_ORDER[n - 1]) {
        assert init[i] in IN_ORDER[..n - 1];
      }
    }
  }

  lemma CodesAreListed(values: seq<string>)
    ensures forall c :: c in Codes(values) ==> c in IN_ORDER
  {
    forall raw: string ensures Code(raw) in IN_ORDER {
      CodeIsListed(raw);
    }
    hide Code;
  }

  lemma CodeIsListed(raw: string)
    ensures Code(raw) in IN_ORDER
  {
    hide Strip;
    var c := Strip(raw);
    assert IN_ORDER[0] == UNKNOWN;
    if c in SAFE_CODES {
      assert c == IN_ORDER[1] || c == IN_ORDER[2] || c == IN_ORDER[3] || c == IN_ORDER[4] || c == IN_ORDER[5]
          || c == IN_ORDER[6] || c == IN_ORDER[7] || c == IN_ORDER[8] || c == IN_ORDER[9] || c == IN_ORDER[10]
          || c == IN_ORDER[11];
    }
  }

  /** The result is strictly ascending and holds exactly the codes of the values. */
  lemma NormalizeIsSorted(values: seq<string>)
    ensures Ascending(Normalize(values))
    ensures forall c :: c in Normalize(values) <==> c in Codes(values)
  {
    hide Before, Codes;
    ListIsAscending();
    SortedHolds(Codes(values), |IN_ORDER|);
    assert IN_ORDER[..|IN_ORDER|] == IN_ORDER;
    CodesAreListed(values);
  }

  /** Two lists normalize alike exactly when they hold the same codes, in whatever order and number. */
  lemma SameCodesIff(a: seq<string>, b: seq<string>)
    ensures Normalize(a) == Normalize(b) <==> Codes(a) == Codes(b)
  {
    hide Codes, Ascending, Sorted;
    NormalizeIsSorted(a);
    NormalizeIsSorted(b);
    if Normalize(a) == Normalize(b) {
      assert forall c :: c in Codes(a) <==> c in Codes(b);
    }
  }

  lemma StripStays(c: string)
    requires |c| > 0 && !IsSpace(c[0]) && !IsSpace(c[|c| - 1])
    ensures Strip(c) == c
  {
  }

  lemma CodesAreTrimmed(k: nat)
    requires k < |IN_ORDER|
    ensures var c := IN_ORDER[k]; |c| > 0 && !IsSpace(c[0]) && !IsSpace(c[|c| - 1])
  {
    var c := IN_ORDER[k];
    assert |c| > 0 && 'a' <= c[0] <= 'z' && ('a' <= c[|c| - 1] <= 'z' || c[|c| - 1] == '5');
  }

  lemma CodeStays(k: nat)
    requires k < |IN_ORDER|
    ensures Code(IN_ORDER[k]) == IN_ORDER[k]
  {
    hide Strip;
    CodesAreTrimmed(k);
    StripStays(IN_ORDER[k]);
    assert k > 0 ==> IN_ORDER[k] in SAFE_CODES;
  }

  /** Normalizing twice changes nothing. */
  lemma NormalizeIsIdempotent(values: seq<string>)
    ensures Normalize(Normalize(values)) == Normalize(values)
  {
    hide Code, Before, Sorted;
    var n := Normalize(values);
    NormalizeIsSorted(values);
    CodesAreListed(values);
    forall c ensures c in Codes(n) <==> c in Codes(values) {
      if c in Codes(values) {
        var i :| 0 <= i < |n| && n[i] == c;
        var k :| 0 <= k < |IN_ORDER| && IN_ORDER[k] == c;
        CodeStays(k);
        assert Code(n[i]) == c;
      }
      if c in Codes(n) {
        var i :| 0 <= i < |n| && Code(n[i]) == c;
        assert n[i] in Codes(values);
        var k :| 0 <= k < |IN_ORDER| && IN_ORDER[k] == n[i];
        CodeStays(k);
      }
    }
    assert Codes(n) == Codes(values);
  }

  // ------------------------------------------------------------ which values give a code

  /** The white space of Python's str.strip. */
  predicate IsBlank(c: char) {
    c in {' ', '\t', '\n', '\U{b}', '\U{c}', '\r', '\U{1c}', '\U{1d}', '\U{1e}', '\U{1f}', '\U{85}', '\U{a0}', '\U{1680}',
          '\U{2000}', '\U{2001}', '\U{2002}', '\U{2003}', '\U{2004}', '\U{2005}', '\U{2006}', '\U{2007}', '\U{2008}',
          '\U{2009}', '\U{200a}', '\U{2028}', '\U{2029}', '\U{202f}', '\U{205f}', '\U{3000}'}
  }

  lemma SpaceIsBlank(c: char)
    ensures IsSpace(c) <==> IsBlank(c)
  {
    var n := c as int;
  }

  /** `c` stands in `raw` at `i`, with nothing but white space around it. */
  predicate Framed(raw: string, c: string, i: nat) {
    && i + |c| <= |raw| && raw[i..i + |c|] == c
    && (forall j :: 0 <= j < i ==> IsBlank(raw[j]))
    && forall j :: i + |c| <= j < |raw| ==> IsBlank(raw[j])
  }

  lemma {:induction false} StripIs(raw: string, c: string)
    requires c != "" && !IsBlank(c[0]) && !IsBlank(c[|c| - 1])
    ensures Strip(raw) == c <==> exists i :: 0 <= i <= |raw| && Framed(raw, c, i)
    decreases |raw|
  {
    hide IsSpace, IsBlank;
    if raw != "" {
      var n := |raw| - 1;
      SpaceIsBlank(raw[0]);
      SpaceIsBlank(raw[n]);
      if IsSpace(raw[0]) {
        StripIs(raw[1..], c);
        FrontBlank(raw, c);
      } else if IsSpace(raw[n]) {
        StripIs(raw[..n], c);
        BackBlank(raw, c, n);
      } else {
        if i :| 0 <= i <= |raw| && Framed(raw, c, i) {
          assert i == 0 && |c| == |raw|;
        }
        if raw == c {
          assert Framed(raw, c, 0);
        }
      }
    }
  }

  lemma FrontBlank(raw: string, c: string)
    requires c != "" && !IsBlank(c[0]) && raw != "" && IsBlank(raw[0])
    ensures (exists i :: 0 <= i <= |raw| && Framed(raw, c, i))
       <==> exists i :: 0 <= i <= |raw[1..]| && Framed(raw[1..], c, i)
  {
    hide IsBlank;
    if i :| 0 <= i <= |raw| && Framed(raw, c, i) {
      assert raw[i..i + |c|][0] == raw[i];
      assert raw[1..][i - 1..i - 1 + |c|] == raw[i..i + |c|];
      assert Framed(raw[1..], c, i - 1);
    }
    if i :| 0 <= i <= |raw[1..]| && Framed(raw[1..], c, i) {
      assert raw[i + 1..i + 1 + |c|] == raw[1..][i..i + |c|];
      assert forall j :: 0 < j < |raw| ==> raw[j] == raw[1..][j - 1];
      assert Framed(raw, c, i + 1);
    }
  }

  lemma BackBlank(raw: string, c: string, n: nat)
    requires c != "" && !IsBlank(c[|c| - 1]) && raw != "" && n == |raw| - 1 && IsBlank(raw[n])
    ensures (exists i :: 0 <= i <= |raw| && Framed(raw, c, i))
       <==> exists i :: 0 <= i <= |raw[..n]| && Framed(raw[..n], c, i)
  {
    hide IsBlank;
    if i :| 0 <= i <= |raw| && Framed(raw, c, i) {
      assert raw[i..i + |c|][|c| - 1] == raw[i + |c| - 1];
      assert raw[..n][i..i + |c|] == raw[i..i + |c|];
      assert Framed(raw[..n], c, i);
    }
    if i :| 0 <= i <= |raw[..n]| && Framed(raw[..n], c, i) {
      assert raw[i..i + |c|] == raw[..n][i..i + |c|];
      assert Framed(raw, c, i);
    }
  }

  /** A value gives a listed code exactly when it is that code between white space; otherwise it gives the code
      for unknown. */
  lemma CodeIff(raw: string, k: nat)
    requires 0 < k < |IN_ORDER|
    ensures Code(raw) == IN_ORDER[k] <==> exists i :: 0 <= i <= |raw| && Framed(raw, IN_ORDER[k], i)
    ensures Code(raw) == UNKNOWN || exists j :: 0 < j < |IN_ORDER| && Code(raw) == IN_ORDER[j]
  {
    var c := IN_ORDER[k];
    CodesAreTrimmed(k);
    SpaceIsBlank(c[0]);
    SpaceIsBlank(c[|c| - 1]);
    CodeStays(k);
    CodeIsListed(raw);
    hide Strip, Framed, IsSpace, IsBlank;
    StripIs(raw, c);
  }
}
