/**
 The expression language of design/support.js (lines 202-294): a parser that scans strings and evaluates
 as it goes. JavaScript's values are a parameter; so is the object whose properties paths read.
 */
module Expression {
  import opened Wrappers

  datatype Op = StrictEq | StrictNe | LooseEq | LooseNe {
    function Text(): string {
      match this
      case StrictEq => "==="
      case StrictNe => "!=="
      case LooseEq => "=="
      case LooseNe => "!="
    }
  }

  /** What the parser uses of JavaScript. */
  datatype Host<!V> = Host(
    undefined: V,
    null_: V,
    boolean: bool -> V,
    text: string -> V,
    number: string -> V,
    truthy: V -> bool,
    nullish: V -> bool,
    strictEq: (V, V) -> bool,
    looseEq: (V, V) -> bool,
    property: (V, V) -> V)
  {
    function Compare(op: Op, a: V, b: V): V {
      match op
      case StrictEq => boolean(strictEq(a, b))
      case StrictNe => boolean(!strictEq(a, b))
      case LooseEq => boolean(looseEq(a, b))
      case LooseNe => boolean(!looseEq(a, b))
    }

    /** `cur == null ? undefined : cur[key]`. */
    function Get(cur: V, key: V): V {
      if nullish(cur) then undefined else property(cur, key)
    }
  }

  // ------------------------------------------------------------ characters

  predicate IsSpace(c: char) {
    '\t' <= c <= '\r' || c == ' ' || c == '\U{a0}' || c == '\U{1680}' || '\U{2000}' <= c <= '\U{200a}'
    || c == '\U{2028}' || c == '\U{2029}' || c == '\U{202f}' || c == '\U{205f}' || c == '\U{3000}' || c == '\U{feff}'
  }

  predicate IsDigit(c: char) {
    '0' <= c <= '9'
  }

  predicate StartsName(c: char) {
    'A' <= c <= 'Z' || 'a' <= c <= 'z' || c == '_' || c == '$'
  }

  predicate InName(c: char) {
    StartsName(c) || IsDigit(c)
  }

  function Trim(s: string): (t: string)
    ensures |t| <= |s|
  {
    if s == "" then s
    else if IsSpace(s[0]) then Trim(s[1..])
    else if IsSpace(s[|s| - 1]) then Trim(s[..|s| - 1])
    else s
  }

  /** The end of the run of name characters, or of digits, at `i`. */
  function NameRun(s: string, i: nat): (j: nat)
    requires i <= |s|
    ensures i <= j <= |s|
    decreases |s| - i
  {
    if i < |s| && InName(s[i]) then NameRun(s, i + 1) else i
  }

  function DigitRun(s: string, i: nat): (j: nat)
    requires i <= |s|
    ensures i <= j <= |s|
    decreases |s| - i
  {
    if i < |s| && IsDigit(s[i]) then DigitRun(s, i + 1) else i
  }

  /** IDENT_RE at `i`; equal to `i` when it does not match. */
  function NameEnd(s: string, i: nat): (j: nat)
    requires i <= |s|
    ensures i <= j <= |s|
  {
    if i < |s| && StartsName(s[i]) then NameRun(s, i) else i
  }

  /** NUMBER_RE. */
  predicate IsNumber(s: string) {
    var a := if s != "" && s[0] == '-' then 1 else 0;
    var b := DigitRun(s, a);
    a < b && (b == |s| || (s[b] == '.' && b + 1 < |s| && DigitRun(s, b + 1) == |s|))
  }

  // ------------------------------------------------------------ the scans

  /** `parensWrapWhole` from `i` at `depth`. */
  predicate Wraps(s: string, i: nat, depth: int)
    decreases |s| - i
  {
    if i + 1 >= |s| then true
    else if s[i] == '(' then Wraps(s, i + 1, depth + 1)
    else if s[i] == ')' then depth != 1 && Wraps(s, i + 1, depth - 1)
    else Wraps(s, i + 1, depth)
  }

  datatype Found = Found(index: nat, op: Op)

  predicate Signs(c: char) {
    c == '=' || c == '!'
  }

  /** The operator that starts at `i`. */
  function OpAt(s: string, i: nat): Op
    requires i < |s|
  {
    if i + 2 < |s| && s[i + 2] == '=' then (if s[i] == '=' then StrictEq else StrictNe)
    else (if s[i] == '=' then LooseEq else LooseNe)
  }

  /** An operator starts here and has a left operand. */
  predicate Splits(s: string, i: nat)
    requires i < |s|
  {
    Signs(s[i]) && i + 1 < |s| && s[i + 1] == '=' && (i == 0 || !Signs(s[i - 1])) && Trim(s[..i]) != ""
  }

  /** `findTopLevelEquality` from `i` at `depth`. */
  function FindEq(s: string, i: nat, depth: int): (r: Option<Found>)
    ensures r.Some? ==> r.value.index < |s| && Splits(s, r.value.index) && r.value.op == OpAt(s, r.value.index)
    decreases |s| - i
  {
    if i >= |s| then None
    else if s[i] == '[' || s[i] == '(' then FindEq(s, i + 1, depth + 1)
    else if s[i] == ']' || s[i] == ')' then FindEq(s, i + 1, depth - 1)
    else if depth == 0 && Splits(s, i) then Some(Found(i, OpAt(s, i)))
    else FindEq(s, i + 1, depth)
  }

  /** The index of the bracket that closes a path's `[`. */
  function Close(s: string, j: nat, depth: nat): (r: Option<nat>)
    ensures r.Some? ==> j <= r.value < |s|
    decreases |s| - j
  {
    if j >= |s| || depth == 0 then None
    else if s[j] == '[' then Close(s, j + 1, depth + 1)
    else if s[j] == ']' then (if depth == 1 then Some(j) else Close(s, j + 1, depth - 1))
    else Close(s, j + 1, depth)
  }

  method ParensWrapWhole(expr: string) returns (r: bool)
    ensures r == Wraps(expr, 0, 0)
  {
    var depth, i := 0, 0;
    while i + 1 < |expr|
      invariant Wraps(expr, 0, 0) == Wraps(expr, i, depth)
    {
      if expr[i] == '(' {
        depth := depth + 1;
      } else if expr[i] == ')' {
        depth := depth - 1;
        if depth == 0 {
          return false;
        }
      }
      i := i + 1;
    }
    return true;
  }

  method FindTopLevelEquality(expr: string) returns (r: Option<Found>)
    ensures r == FindEq(expr, 0, 0)
  {
    var depth, i := 0, 0;
    while i < |expr|
      invariant i <= |expr| && FindEq(expr, 0, 0) == FindEq(expr, i, depth)
    {
      var c := expr[i];
      if c == '[' || c == '(' {
        depth := depth + 1;
      } else if c == ']' || c == ')' {
        depth := depth - 1;
      } else if depth == 0 && (c == '=' || c == '!') && i + 1 < |expr| && expr[i + 1] == '=' {
        if !(i > 0 && (expr[i - 1] == '=' || expr[i - 1] == '!')) && Trim(expr[..i]) != "" {
          return Some(Found(i, OpAt(expr, i)));
        }
      }
      i := i + 1;
    }
    return None;
  }

  // ------------------------------------------------------------ the evaluator

  predicate IsQuoted(e: string) {
    |e| >= 2 && (e[0] == '"' || e[0] == '\'') && e[|e| - 1] == e[0]
  }

  function Resolve<V>(h: Host<V>, vals: V, src: string): V
    decreases |src|, 1, 0
  {
    var e := Trim(src);
    if e == "" then h.undefined
    else if e[0] == '(' && e[|e| - 1] == ')' && Wraps(e, 0, 0) then Resolve(h, vals, e[1..|e| - 1])
    else
      var eq := FindEq(e, 0, 0);
      if eq.Some? then
        var i, op := eq.value.index, eq.value.op;
        SplitFits(e, i);
        h.Compare(op, Resolve(h, vals, e[..i]), Resolve(h, vals, e[i + |op.Text()|..]))
      else if e[0] == '!' then h.boolean(!h.truthy(Resolve(h, vals, e[1..])))
      else if e == "true" then h.boolean(true)
      else if e == "false" then h.boolean(false)
      else if e == "null" then h.null_
      else if e == "undefined" then h.undefined
      else if IsNumber(e) then h.number(e)
      else if IsQuoted(e) then h.text(e[1..|e| - 1])
      else ResolvedPath(h, vals, e)
  }

  lemma SplitFits(e: string, i: nat)
    requires i < |e| && Splits(e, i)
    ensures 0 < i && i + |OpAt(e, i).Text()| <= |e|
  {
  }

  function ResolvedPath<V>(h: Host<V>, vals: V, s: string): V
    decreases |s|, 0, |s| + 1
  {
    var n := NameEnd(s, 0);
    if n == 0 then h.undefined else PathFrom(h, vals, s, n, h.Get(vals, h.text(s[..n])))
  }

  /** The rest of a path from `i`, with `cur` reached so far. */
  function PathFrom<V>(h: Host<V>, vals: V, s: string, i: nat, cur: V): V
    requires i <= |s|
    decreases |s|, 0, |s| - i
  {
    if i == |s| then cur
    else if s[i] == '.' then
      var n := if NameEnd(s, i + 1) > i + 1 then NameEnd(s, i + 1) else DigitRun(s, i + 1);
      if n == i + 1 then h.undefined else PathFrom(h, vals, s, n, h.Get(cur, h.text(s[i + 1..n])))
    else if s[i] == '[' then
      var j := Close(s, i + 1, 1);
      if j.None? then h.undefined
      else PathFrom(h, vals, s, j.value + 1, h.Get(cur, Resolve(h, vals, s[i + 1..j.value])))
    else h.undefined
  }

  /** The inner loop of `resolvePath`. */
  method MatchingBracket(expr: string, i: nat) returns (r: Option<nat>)
    requires i < |expr| && expr[i] == '['
    ensures r == Close(expr, i + 1, 1)
  {
    var depth, j := 1, i + 1;
    while j < |expr| && depth > 0
      invariant i < j <= |expr| && depth > 0
      invariant Close(expr, i + 1, 1) == Close(expr, j, depth)
    {
      if expr[j] == '[' {
        depth := depth + 1;
      } else if expr[j] == ']' {
        depth := depth - 1;
        if depth == 0 {
          break;
        }
      }
      j := j + 1;
    }
    return if depth != 0 then None else Some(j);
  }

  method ResolvePath<V>(h: Host<V>, vals: V, expr: string) returns (r: V)
    ensures r == ResolvedPath(h, vals, expr)
    decreases |expr|, 0
  {
    var n := NameEnd(expr, 0);
    if n == 0 {
      return h.undefined;
    }
    var cur := h.Get(vals, h.text(expr[..n]));
    var i := n;
    while i < |expr|
      invariant i <= |expr| && ResolvedPath(h, vals, expr) == PathFrom(h, vals, expr, i, cur)
    {
      if expr[i] == '.' {
        var m := NameEnd(expr, i + 1);
        if m == i + 1 {
          m := DigitRun(expr, i + 1);
        }
        if m == i + 1 {
          return h.undefined;
        }
        cur := h.Get(cur, h.text(expr[i + 1..m]));
        i := m;
      } else if expr[i] == '[' {
        var j := MatchingBracket(expr, i);
        if j.None? {
          return h.undefined;
        }
        var key := ResolveSource(h, vals, expr[i + 1..j.value]);
        cur := h.Get(cur, key);
        i := j.value + 1;
      } else {
        return h.undefined;
      }
    }
    return cur;
  }

  /** `resolve`. */
  method ResolveSource<V>(h: Host<V>, vals: V, src: string) returns (r: V)
    ensures r == Resolve(h, vals, src)
    decreases |src|, 1
  {
    var e := Trim(src);
    if e == "" {
      return h.undefined;
    }
    if e[0] == '(' && e[|e| - 1] == ')' {
      var whole := ParensWrapWhole(e);
      if whole {
        r := ResolveSource(h, vals, e[1..|e| - 1]);
        return;
      }
    }
    var eq := FindTopLevelEquality(e);
    if eq.Some? {
      SplitFits(e, eq.value.index);
      var left := ResolveSource(h, vals, e[..eq.value.index]);
      var right := ResolveSource(h, vals, e[eq.value.index + |eq.value.op.Text()|..]);
      return h.Compare(eq.value.op, left, right);
    }
    if e[0] == '!' {
      var v := ResolveSource(h, vals, e[1..]);
      return h.boolean(!h.truthy(v));
    }
    if e == "true" { return h.boolean(true); }
    if e == "false" { return h.boolean(false); }
    if e == "null" { return h.null_; }
    if e == "undefined" { return h.undefined; }
    if IsNumber(e) { return h.number(e); }
    if IsQuoted(e) { return h.text(e[1..|e| - 1]); }
    r := ResolvePath(h, vals, e);
  }

  // ------------------------------------------------------------ expressions and their text

  datatype Literal =
    | True | False | Null | Undefined
    | Number(negative: bool, whole: string, fraction: Option<string>)
    | Quoted(quote: char, body: string)

  /** A segment of a path: a name or an array index after a dot, or an expression in brackets. */
  datatype Seg = Dot(name: string) | Index(e: Expr)

  datatype Expr =
    | Paren(e: Expr)
    | Eq(op: Op, left: Expr, before: string, after: string, right: Expr)
    | Not(e: Expr)
    | Lit(l: Literal)
    | Path(head: string, segs: seq<Seg>)

  function LiteralText(l: Literal): string {
    match l
    case True => "true"
    case False => "false"
    case Null => "null"
    case Undefined => "undefined"
    case Number(negative, whole, fraction) =>
      (if negative then "-" else "") + whole + (if fraction.Some? then "." + fraction.value else "")
    case Quoted(quote, body) => [quote] + body + [quote]
  }

  function Print(e: Expr): string {
    match e
    case Paren(x) => "(" + (Print(x) + ")")
    case Eq(op, left, before, after, right) => Print(left) + (before + (op.Text() + (after + Print(right))))
    case Not(x) => "!" + Print(x)
    case Lit(l) => LiteralText(l)
    case Path(head, segs) => head + PrintSegs(segs)
  }

  function PrintSegs(segs: seq<Seg>): string {
    if segs == [] then "" else PrintSeg(segs[0]) + PrintSegs(segs[1..])
  }

  function PrintSeg(seg: Seg): string {
    match seg
    case Dot(name) => "." + name
    case Index(x) => "[" + (Print(x) + "]")
  }

  function LiteralValue<V>(h: Host<V>, l: Literal): V {
    match l
    case True => h.boolean(true)
    case False => h.boolean(false)
    case Null => h.null_
    case Undefined => h.undefined
    case Number(_, _, _) => h.number(LiteralText(l))
    case Quoted(_, body) => h.text(body)
  }

  /** `a op b` in JavaScript. */
  function Compared<V>(h: Host<V>, op: Op, a: V, b: V): V {
    var strict, loose := h.strictEq(a, b), h.looseEq(a, b);
    h.boolean((op == StrictEq && strict) || (op == StrictNe && !strict) || (op == LooseEq && loose)
              || (op == LooseNe && !loose))
  }

  /** A property of a value, undefined where there is no object to ask. */
  function Member<V>(h: Host<V>, cur: V, key: V): V {
    if !h.nullish(cur) then h.property(cur, key) else h.undefined
  }

  /** What an expression means, read off its tree. */
  function Eval<V>(h: Host<V>, vals: V, e: Expr): V {
    match e
    case Paren(x) => Eval(h, vals, x)
    case Eq(op, left, _, _, right) => Compared(h, op, Eval(h, vals, left), Eval(h, vals, right))
    case Not(x) => h.boolean(!h.truthy(Eval(h, vals, x)))
    case Lit(l) => LiteralValue(h, l)
    case Path(head, segs) => EvalSegs(h, vals, Member(h, vals, h.text(head)), segs)
  }

  function EvalSegs<V>(h: Host<V>, vals: V, cur: V, segs: seq<Seg>): V {
    if segs == [] then cur else EvalSegs(h, vals, EvalSeg(h, vals, cur, segs[0]), segs[1..])
  }

  function EvalSeg<V>(h: Host<V>, vals: V, cur: V, seg: Seg): V {
    match seg
    case Dot(name) => Member(h, cur, h.text(name))
    case Index(x) => Member(h, cur, Eval(h, vals, x))
  }

  // ------------------------------------------------------------ which trees are printed faithfully

  // The alphabets of the trees, apart from the scanner's own tests.

  predicate IsLetter(c: char) {
    c in {'A', 'B', 'C', 'D', 'E', 'F', 'G', 'H', 'I', 'J', 'K', 'L', 'M',
          'N', 'O', 'P', 'Q', 'R', 'S', 'T', 'U', 'V', 'W', 'X', 'Y', 'Z',
          'a', 'b', 'c', 'd', 'e', 'f', 'g', 'h', 'i', 'j', 'k', 'l', 'm',
          'n', 'o', 'p', 'q', 'r', 's', 't', 'u', 'v', 'w', 'x', 'y', 'z', '_', '$'}
  }

  predicate IsNumeral(c: char) {
    c in {'0', '1', '2', '3', '4', '5', '6', '7', '8', '9'}
  }

  /** White space and line ends of ECMAScript. */
  predicate IsBlank(c: char) {
    c in {' ', '\t', '\n', '\U{b}', '\U{c}', '\r', '\U{a0}', '\U{1680}', '\U{2000}', '\U{2001}', '\U{2002}',
          '\U{2003}', '\U{2004}', '\U{2005}', '\U{2006}', '\U{2007}', '\U{2008}', '\U{2009}', '\U{200a}', '\U{2028}',
          '\U{2029}', '\U{202f}', '\U{205f}', '\U{3000}', '\U{feff}'}
  }

  /** The scanner's tests accept exactly the characters of the alphabets. */
  lemma AlphabetsAgree(c: char)
    ensures StartsName(c) <==> IsLetter(c)
    ensures IsDigit(c) <==> IsNumeral(c)
    ensures InName(c) <==> IsLetter(c) || IsNumeral(c)
    ensures IsSpace(c) <==> IsBlank(c)
  {
    SpacesAgree(c);
    hide IsSpace, IsBlank;
  }

  lemma SpacesAgree(c: char)
    ensures IsSpace(c) <==> IsBlank(c)
  {
    var n := c as int;
  }

  lemma TextAgrees(s: string)
    ensures forall i :: 0 <= i < |s| ==> (StartsName(s[i]) <==> IsLetter(s[i]))
    ensures forall i :: 0 <= i < |s| ==> (IsDigit(s[i]) <==> IsNumeral(s[i]))
    ensures forall i :: 0 <= i < |s| ==> (IsSpace(s[i]) <==> IsBlank(s[i]))
  {
    hide *;
    forall i | 0 <= i < |s|
      ensures (StartsName(s[i]) <==> IsLetter(s[i])) && (IsDigit(s[i]) <==> IsNumeral(s[i]))
           && (IsSpace(s[i]) <==> IsBlank(s[i]))
    {
      AlphabetsAgree(s[i]);
    }
  }

  predicate IsName(s: string): (r: bool)
    ensures r ==> s != "" && StartsName(s[0]) && forall i :: 0 <= i < |s| ==> InName(s[i])
  {
    TextAgrees(s);
    s != "" && IsLetter(s[0]) && forall i :: 0 <= i < |s| ==> IsLetter(s[i]) || IsNumeral(s[i])
  }

  predicate IsIndex(s: string): (r: bool)
    ensures r ==> s != "" && forall i :: 0 <= i < |s| ==> IsDigit(s[i])
  {
    TextAgrees(s);
    s != "" && forall i :: 0 <= i < |s| ==> IsNumeral(s[i])
  }

  predicate AllSpace(s: string): (r: bool)
    ensures r ==> forall i :: 0 <= i < |s| ==> IsSpace(s[i])
  {
    TextAgrees(s);
    forall i :: 0 <= i < |s| ==> IsBlank(s[i])
  }

  predicate Bracket(c: char) {
    c == '(' || c == ')' || c == '[' || c == ']'
  }

  /** No brackets and no equality signs. */
  predicate Plain(s: string) {
    forall i :: 0 <= i < |s| ==> !Bracket(s[i]) && s[i] != '='
  }

  predicate IsKeyword(s: string) {
    s == "true" || s == "false" || s == "null" || s == "undefined"
  }

  predicate FineLiteral(l: Literal) {
    match l
    case Number(_, whole, fraction) => IsIndex(whole) && (fraction.Some? ==> IsIndex(fraction.value))
    case Quoted(quote, body) => (quote == '"' || quote == '\'') && Plain(body)
    case True => true
    case False => true
    case Null => true
    case Undefined => true
  }

  /** Identifiers are not keywords, strings are free of brackets and equality signs, and the left operand
      of an equality and the operand of a negation are not bare equalities. */
  predicate Fine(e: Expr) {
    match e
    case Paren(x) => Fine(x)
    case Eq(_, left, before, after, right) => Fine(left) && !left.Eq? && AllSpace(before) && AllSpace(after) && Fine(right)
    case Not(x) => Fine(x) && !x.Eq?
    case Lit(l) => FineLiteral(l)
    case Path(head, segs) =>
      IsName(head) && (segs == [] ==> !IsKeyword(head)) && forall i :: 0 <= i < |segs| ==> FineSeg(segs[i])
  }

  predicate FineSeg(seg: Seg) {
    match seg
    case Dot(name) => IsName(name) || IsIndex(name)
    case Index(x) => Fine(x)
  }

  // ------------------------------------------------------------ bracket depth

  datatype Kind = Both | Round | Square

  function Delta(k: Kind, c: char): int {
    if (c == '(' && k != Square) || (c == '[' && k != Round) then 1
    else if (c == ')' && k != Square) || (c == ']' && k != Round) then -1
    else 0
  }

  function Net(k: Kind, x: string): int {
    if x == "" then 0 else Delta(k, x[0]) + Net(k, x[1..])
  }

  /** Starting at depth `d`, no prefix goes below zero. */
  predicate StaysUp(k: Kind, x: string, d: int) {
    d >= 0 && (x == "" || StaysUp(k, x[1..], d + Delta(k, x[0])))
  }

  predicate Balanced(k: Kind, x: string) {
    Net(k, x) == 0 && StaysUp(k, x, 0)
  }

  lemma {:induction false} NetConcat(k: Kind, x: string, y: string)
    ensures Net(k, x + y) == Net(k, x) + Net(k, y)
  {
    if x == "" {
      assert x + y == y;
    } else {
      assert (x + y)[1..] == x[1..] + y;
      NetConcat(k, x[1..], y);
    }
  }

  lemma {:induction false} UpConcat(k: Kind, x: string, y: string, d: int)
    requires StaysUp(k, x, d) && StaysUp(k, y, d + Net(k, x))
    ensures StaysUp(k, x + y, d)
  {
    if x == "" {
      assert x + y == y;
    } else {
      assert (x + y)[1..] == x[1..] + y;
      UpConcat(k, x[1..], y, d + Delta(k, x[0]));
    }
  }

  lemma {:induction false} UpHigher(k: Kind, x: string, d: int, e: int)
    requires StaysUp(k, x, d) && d <= e
    ensures StaysUp(k, x, e)
  {
    if x != "" {
      UpHigher(k, x[1..], d + Delta(k, x[0]), e + Delta(k, x[0]));
    }
  }

  lemma BalancedConcat(k: Kind, x: string, y: string)
    requires Balanced(k, x) && Balanced(k, y)
    ensures Balanced(k, x + y)
  {
    NetConcat(k, x, y);
    UpConcat(k, x, y, 0);
  }

  lemma BalancedWrap(k: Kind, x: string, open: string, close: string)
    requires Balanced(k, x) && ((open == "(" && close == ")") || (open == "[" && close == "]"))
    ensures Balanced(k, open + (x + close))
  {
    var d := Delta(k, open[0]);
    assert Net(k, open) == d && Net(k, close) == -d;
    NetConcat(k, x, close);
    NetConcat(k, open, x + close);
    UpHigher(k, x, 0, d);
    assert StaysUp(k, close, d);
    UpConcat(k, x, close, d);
    UpConcat(k, open, x + close, 0);
  }

  lemma {:induction false} NoBracketsBalanced(k: Kind, x: string)
    requires forall i :: 0 <= i < |x| ==> !Bracket(x[i])
    ensures Balanced(k, x)
  {
    if x != "" {
      NoBracketsBalanced(k, x[1..]);
    }
  }

  lemma {:induction false} PrintBalanced(k: Kind, e: Expr)
    requires Fine(e)
    ensures Balanced(k, Print(e))
    decreases e, 1
  {
    hide Balanced, IsNumber;
    match e
    case Paren(x) =>
      PrintBalanced(k, x);
      BalancedWrap(k, Print(x), "(", ")");
    case Eq(op, left, before, after, right) =>
      PrintBalanced(k, left);
      PrintBalanced(k, right);
      NoBracketsBalanced(k, before);
      NoBracketsBalanced(k, op.Text());
      NoBracketsBalanced(k, after);
      BalancedConcat(k, after, Print(right));
      BalancedConcat(k, op.Text(), after + Print(right));
      BalancedConcat(k, before, op.Text() + (after + Print(right)));
      BalancedConcat(k, Print(left), before + (op.Text() + (after + Print(right))));
    case Not(x) =>
      PrintBalanced(k, x);
      NoBracketsBalanced(k, "!");
      BalancedConcat(k, "!", Print(x));
    case Lit(l) =>
      LiteralIsPlain(l);
      NoBracketsBalanced(k, LiteralText(l));
    case Path(head, segs) =>
      NoBracketsBalanced(k, head);
      SegsBalanced(k, segs);
      BalancedConcat(k, head, PrintSegs(segs));
  }

  lemma {:induction false} SegsBalanced(k: Kind, segs: seq<Seg>)
    requires forall i :: 0 <= i < |segs| ==> FineSeg(segs[i])
    ensures Balanced(k, PrintSegs(segs))
    decreases segs, 0
  {
    hide Balanced;
    if segs == [] {
      NoBracketsBalanced(k, "");
    } else {
      SegBalanced(k, segs[0]);
      SegsBalanced(k, segs[1..]);
      BalancedConcat(k, PrintSeg(segs[0]), PrintSegs(segs[1..]));
    }
  }

  lemma {:induction false} SegBalanced(k: Kind, seg: Seg)
    requires FineSeg(seg)
    ensures Balanced(k, PrintSeg(seg))
    decreases seg, 0
  {
    hide Balanced;
    match seg
    case Dot(name) =>
      NoBracketsBalanced(k, "." + name);
    case Index(x) =>
      PrintBalanced(k, x);
      BalancedWrap(k, Print(x), "[", "]");
  }

  // ------------------------------------------------------------ literals

  lemma {:induction false} DigitsAre(s: string, i: nat)
    requires i <= |s|
    ensures forall j :: i <= j < DigitRun(s, i) ==> IsDigit(s[j])
    decreases |s| - i
  {
    if i < |s| && IsDigit(s[i]) {
      DigitsAre(s, i + 1);
    }
  }

  /** The text of a number: an optional minus sign, digits and at most one point. */
  lemma NumberChars(s: string)
    requires IsNumber(s)
    ensures |s| > 0 && (IsDigit(s[0]) || s[0] == '-') && IsDigit(s[|s| - 1])
    ensures forall j :: 0 <= j < |s| ==> IsDigit(s[j]) || s[j] == '-' || s[j] == '.'
  {
    var a := if s != "" && s[0] == '-' then 1 else 0;
    var b := DigitRun(s, a);
    DigitsAre(s, a);
    if b < |s| {
      DigitsAre(s, b + 1);
    }
  }

  /** The scanner reads every printed number as one. */
  lemma NumberReads(negative: bool, whole: string, fraction: Option<string>)
    requires IsIndex(whole) && (fraction.Some? ==> IsIndex(fraction.value))
    ensures IsNumber(LiteralText(Number(negative, whole, fraction)))
  {
    var sign, rest := if negative then "-" else "", if fraction.Some? then "." + fraction.value else "";
    var s := sign + whole + rest;
    assert s == LiteralText(Number(negative, whole, fraction));
    assert !IsDigit('.') && !IsDigit('-') && IsDigit(whole[0]);
    hide IsNumber, LiteralText, DigitRun, IsNumeral, IsDigit, IsIndex;
    WholeRun(sign, whole, rest);
    if fraction.Some? {
      FractionRun(sign + whole, fraction.value);
    }
    NumberBy(s, |sign|, |sign + whole|);
  }

  lemma WholeRun(sign: string, whole: string, rest: string)
    requires IsIndex(whole) && (rest != "" ==> !IsDigit(rest[0])) && (sign == "" || sign == "-")
    ensures var s := sign + whole + rest; DigitRun(s, |sign|) == |sign + whole| && s[0] == (sign + whole)[0]
  {
    var s := sign + whole + rest;
    hide DigitRun, IsNumeral, IsDigit;
    assert At(s, |sign|, whole) && (rest != "" ==> s[|sign| + |whole|] == rest[0]);
    hide At;
    DigitRunIs(s, |sign|, whole);
  }

  lemma FractionRun(front: string, digits: string)
    requires IsIndex(digits)
    ensures var s := front + ("." + digits);
      s[|front|] == '.' && |front| + 1 < |s| && DigitRun(s, |front| + 1) == |s|
  {
    var s := front + ("." + digits);
    hide DigitRun, IsNumeral, IsDigit;
    assert At(s, |front| + 1, digits);
    hide At;
    DigitRunIs(s, |front| + 1, digits);
  }

  lemma NumberBy(s: string, a: nat, b: nat)
    requires a < b <= |s| && a == (if s[0] == '-' then 1 else 0) && DigitRun(s, a) == b
    requires b == |s| || (s[b] == '.' && b + 1 < |s| && DigitRun(s, b + 1) == |s|)
    ensures IsNumber(s)
  {
    hide DigitRun;
  }

  lemma LiteralIsPlain(l: Literal)
    requires FineLiteral(l)
    ensures Plain(LiteralText(l)) && |LiteralText(l)| > 0
    ensures var x := LiteralText(l);
      !IsSpace(x[0]) && !IsSpace(x[|x| - 1]) && x[0] != '!' && x[|x| - 1] != '!'
  {
    hide IsNumber;
    if l.Number? {
      NumberReads(l.negative, l.whole, l.fraction);
      NumberChars(LiteralText(l));
    }
  }

  // ------------------------------------------------------------ scanning over printed text

  /** `x` stands in `s` at `i`. */
  predicate At(s: string, i: nat, x: string) {
    i + |x| <= |s| && s[i..i + |x|] == x
  }

  lemma AtSplit(s: string, i: nat, x: string, y: string)
    requires At(s, i, x + y)
    ensures At(s, i, x) && At(s, i + |x|, y)
  {
    assert s[i..i + |x| + |y|] == x + y;
    assert s[i..i + |x|] == (x + y)[..|x|];
    assert s[i + |x|..i + |x| + |y|] == (x + y)[|x|..];
  }

  lemma AtHead(s: string, i: nat, x: string)
    requires At(s, i, x) && x != ""
    ensures s[i] == x[0] && At(s, i + 1, x[1..])
  {
    assert s[i..i + |x|][0] == s[i];
    assert s[i + 1..i + |x|] == s[i..i + |x|][1..];
  }

  lemma {:induction false} WrapsSkip(s: string, i: nat, x: string, d: int)
    requires At(s, i, x) && i + |x| < |s| && StaysUp(Round, x, d - 1)
    ensures Wraps(s, i, d) == Wraps(s, i + |x|, d + Net(Round, x))
    decreases |x|
  {
    if x != "" {
      AtHead(s, i, x);
      WrapsSkip(s, i + 1, x[1..], d + Delta(Round, x[0]));
    }
  }

  lemma {:induction false} CloseSkip(s: string, i: nat, x: string, d: nat)
    requires At(s, i, x) && StaysUp(Square, x, d - 1)
    ensures d + Net(Square, x) >= 0 && Close(s, i, d) == Close(s, i + |x|, d + Net(Square, x))
    decreases |x|
  {
    if x != "" {
      AtHead(s, i, x);
      CloseSkip(s, i + 1, x[1..], d + Delta(Square, x[0]));
    }
  }

  lemma {:induction false} DeepSkip(s: string, i: nat, x: string, d: int)
    requires At(s, i, x) && StaysUp(Both, x, d - 1)
    ensures FindEq(s, i, d) == FindEq(s, i + |x|, d + Net(Both, x))
    decreases |x|
  {
    if x != "" {
      AtHead(s, i, x);
      hide Splits, OpAt;
      DeepSkip(s, i + 1, x[1..], d + Delta(Both, x[0]));
    }
  }

  lemma {:induction false} PlainSkip(s: string, i: nat, x: string)
    requires At(s, i, x) && Plain(x) && (x == "" || x[|x| - 1] != '!')
    ensures FindEq(s, i, 0) == FindEq(s, i + |x|, 0)
    decreases |x|
  {
    if x != "" {
      AtHead(s, i, x);
      if |x| > 1 {
        AtHead(s, i + 1, x[1..]);
      }
      assert !Splits(s, i);
      hide Splits, OpAt;
      PlainSkip(s, i + 1, x[1..]);
    }
  }

  // ------------------------------------------------------------ the ends of printed text

  /** Starts and ends with characters that trimming and operators leave alone. */
  predicate Edged(x: string) {
    |x| > 0 && !IsSpace(x[0]) && x[0] != '=' && !IsSpace(x[|x| - 1]) && !Signs(x[|x| - 1])
  }

  lemma {:induction false} PrintEdged(e: Expr)
    requires Fine(e)
    ensures Edged(Print(e))
    decreases e, 1
  {
    hide IsNumber, Edged, PrintSegs;
    match e
    case Paren(x) =>
      ParenEdged(Print(x));
    case Eq(op, left, before, after, right) =>
      PrintEdged(left);
      PrintEdged(right);
      BetweenEdged(Print(left), before, op.Text(), after, Print(right));
    case Not(x) =>
      PrintEdged(x);
      BangEdged(Print(x));
    case Lit(l) =>
      LiteralIsPlain(l);
      PlainEdged(LiteralText(l));
    case Path(head, segs) =>
      SegsEdged(segs);
      HeadEdged(head, PrintSegs(segs));
  }

  lemma ParenEdged(x: string)
    ensures Edged("(" + (x + ")"))
  {
  }

  lemma BangEdged(x: string)
    requires Edged(x)
    ensures Edged("!" + x)
  {
  }

  lemma PlainEdged(x: string)
    requires Plain(x) && |x| > 0 && !IsSpace(x[0]) && !IsSpace(x[|x| - 1]) && x[|x| - 1] != '!'
    ensures Edged(x)
  {
  }

  lemma BetweenEdged(x: string, a: string, b: string, c: string, y: string)
    requires Edged(x) && Edged(y)
    ensures Edged(x + (a + (b + (c + y))))
  {
    var s := x + (a + (b + (c + y)));
    assert s[0] == x[0] && s[|s| - 1] == y[|y| - 1];
  }

  lemma HeadEdged(head: string, rest: string)
    requires IsName(head) && (rest != "" ==> !IsSpace(rest[|rest| - 1]) && !Signs(rest[|rest| - 1]))
    ensures Edged(head + rest)
  {
  }

  lemma {:induction false} SegsEdged(segs: seq<Seg>)
    requires forall i :: 0 <= i < |segs| ==> FineSeg(segs[i])
    ensures segs == [] ==> PrintSegs(segs) == ""
    ensures segs != [] ==> var x := PrintSegs(segs);
      |x| > 0 && (x[0] == '.' || x[0] == '[') && !IsSpace(x[|x| - 1]) && !Signs(x[|x| - 1])
    decreases segs, 0
  {
    if segs != [] {
      SegsEdged(segs[1..]);
    }
  }

  lemma TrimEdged(x: string)
    requires Edged(x)
    ensures Trim(x) == x
  {
  }

  lemma {:induction false} TrimAfter(x: string, pad: string)
    requires AllSpace(pad)
    ensures Trim(x + pad) == Trim(x)
    decreases |x| + |pad|
  {
    if pad == "" {
      assert x + pad == x;
    } else if x == "" {
      assert x + pad == pad && pad[1..] == "" + pad[1..];
      TrimAfter("", pad[1..]);
    } else if IsSpace(x[0]) {
      assert (x + pad)[1..] == x[1..] + pad;
      TrimAfter(x[1..], pad);
    } else {
      assert (x + pad)[..|x + pad| - 1] == x + pad[..|pad| - 1];
      TrimAfter(x, pad[..|pad| - 1]);
    }
  }

  lemma {:induction false} TrimBefore(pad: string, x: string)
    requires AllSpace(pad)
    ensures Trim(pad + x) == Trim(x)
  {
    if pad == "" {
      assert pad + x == x;
    } else {
      assert (pad + x)[1..] == pad[1..] + x;
      TrimBefore(pad[1..], x);
    }
  }

  // ------------------------------------------------------------ no operator at the top

  lemma {:induction false} TopSkip(s: string, i: nat, e: Expr)
    requires Fine(e) && !e.Eq? && At(s, i, Print(e))
    ensures FindEq(s, i, 0) == FindEq(s, i + |Print(e)|, 0)
    decreases e, 1
  {
    hide IsNumber, At, FindEq, Plain, IsLetter, IsNumeral, IsBlank, StartsName, InName;
    match e
    case Paren(x) =>
      WrappedSkip(s, i, x, "(", ")");
    case Not(x) =>
      BangSkip(s, i, x);
      TopSkip(s, i + 1, x);
    case Lit(l) =>
      LiteralIsPlain(l);
      PlainSkip(s, i, LiteralText(l));
    case Path(head, segs) =>
      AtSplit(s, i, head, PrintSegs(segs));
      NameIsPlain(head);
      PlainSkip(s, i, head);
      SegsSkip(s, i + |head|, segs);
  }

  lemma NameIsPlain(name: string)
    requires IsName(name)
    ensures Plain(name) && name[|name| - 1] != '!'
  {
  }

  lemma BangSkip(s: string, i: nat, x: Expr)
    requires Fine(x) && At(s, i, "!" + Print(x))
    ensures At(s, i + 1, Print(x)) && FindEq(s, i, 0) == FindEq(s, i + 1, 0)
  {
    hide Fine, Print, Splits, OpAt;
    AtSplit(s, i, "!", Print(x));
    AtHead(s, i, "!");
    PrintEdged(x);
    AtHead(s, i + 1, Print(x));
    NoSignAfter(s, i);
  }

  lemma NoSignAfter(s: string, i: nat)
    requires i + 1 < |s| && s[i + 1] != '='
    ensures !Splits(s, i)
  {
  }

  lemma WrappedSkip(s: string, i: nat, x: Expr, open: string, close: string)
    requires Fine(x) && At(s, i, open + (Print(x) + close))
    requires (open == "(" && close == ")") || (open == "[" && close == "]")
    ensures FindEq(s, i, 0) == FindEq(s, i + |Print(x)| + 2, 0)
  {
    hide Splits, OpAt, Fine, Print;
    AtSplit(s, i, open, Print(x) + close);
    AtHead(s, i, open);
    AtSplit(s, i + 1, Print(x), close);
    AtHead(s, i + 1 + |Print(x)|, close);
    PrintBalanced(Both, x);
    DeepSkip(s, i + 1, Print(x), 1);
  }

  lemma {:induction false} SegsSkip(s: string, i: nat, segs: seq<Seg>)
    requires (forall j :: 0 <= j < |segs| ==> FineSeg(segs[j])) && At(s, i, PrintSegs(segs))
    ensures FindEq(s, i, 0) == FindEq(s, i + |PrintSegs(segs)|, 0)
    decreases segs, 0
  {
    hide Splits, OpAt, At, FindEq;
    if segs != [] {
      AtSplit(s, i, PrintSeg(segs[0]), PrintSegs(segs[1..]));
      SegSkip(s, i, segs[0]);
      SegsSkip(s, i + |PrintSeg(segs[0])|, segs[1..]);
    }
  }

  lemma SegSkip(s: string, i: nat, seg: Seg)
    requires FineSeg(seg) && At(s, i, PrintSeg(seg))
    ensures FindEq(s, i, 0) == FindEq(s, i + |PrintSeg(seg)|, 0)
  {
    hide Splits, OpAt, At, FindEq;
    match seg
    case Dot(name) =>
      PlainSkip(s, i, "." + name);
    case Index(x) =>
      WrappedSkip(s, i, x, "[", "]");
  }

  // ------------------------------------------------------------ the round trip

  lemma SameTrim<V>(h: Host<V>, vals: V, a: string, b: string)
    requires Trim(a) == Trim(b)
    ensures Resolve(h, vals, a) == Resolve(h, vals, b)
  {
  }

  /** White space around an expression does not matter. */
  lemma PaddingIsIgnored<V>(h: Host<V>, vals: V, before: string, src: string, after: string)
    requires AllSpace(before) && AllSpace(after)
    ensures Resolve(h, vals, before + src + after) == Resolve(h, vals, src)
  {
    TrimAfter(before + src, after);
    TrimBefore(before, src);
    SameTrim(h, vals, before + src + after, src);
  }

  lemma {:induction false} NameRunIs(s: string, i: nat, name: string)
    requires At(s, i, name) && (forall j :: 0 <= j < |name| ==> InName(name[j]))
    requires i + |name| < |s| ==> !InName(s[i + |name|])
    ensures NameRun(s, i) == i + |name|
    decreases |name|
  {
    if name != "" {
      AtHead(s, i, name);
      NameRunIs(s, i + 1, name[1..]);
    }
  }

  lemma {:induction false} DigitRunIs(s: string, i: nat, name: string)
    requires At(s, i, name) && (forall j :: 0 <= j < |name| ==> IsDigit(name[j]))
    requires i + |name| < |s| ==> !IsDigit(s[i + |name|])
    ensures DigitRun(s, i) == i + |name|
    decreases |name|
  {
    if name != "" {
      AtHead(s, i, name);
      DigitRunIs(s, i + 1, name[1..]);
    }
  }

  /** A closing parenthesis ends a wrapped operand before the end of the text. */
  lemma WrapEnds(s: string, x: Expr)
    requires Fine(x) && At(s, 0, "(" + (Print(x) + ")"))
    ensures Wraps(s, 0, 0) == (|s| == |Print(x)| + 2)
  {
    hide Fine, Print;
    AtSplit(s, 0, "(", Print(x) + ")");
    AtHead(s, 0, "(");
    AtSplit(s, 1, Print(x), ")");
    AtHead(s, 1 + |Print(x)|, ")");
    PrintBalanced(Round, x);
    WrapsSkip(s, 1, Print(x), 1);
  }

  /** `x` between an opening and a closing character. */
  lemma Between(s: string, i: nat, open: string, x: string, close: string)
    requires |open| == 1 && |close| == 1 && At(s, i, open + (x + close))
    ensures i + |x| + 1 < |s| && s[i] == open[0] && s[i + 1 + |x|] == close[0]
    ensures At(s, i + 1, x) && s[i + 1..i + 1 + |x|] == x
  {
    AtSplit(s, i, open, x + close);
    AtHead(s, i, open);
    AtSplit(s, i + 1, x, close);
    AtHead(s, i + 1 + |x|, close);
  }

  lemma BracketCloses(s: string, i: nat, x: string)
    requires At(s, i + 1, x) && i + 1 + |x| < |s| && s[i + 1 + |x|] == ']' && Balanced(Square, x)
    ensures Close(s, i + 1, 1) == Some(i + 1 + |x|)
  {
    CloseSkip(s, i + 1, x, 1);
    hide At, StaysUp, Net;
  }

  lemma BracketEnds(s: string, i: nat, x: Expr)
    requires Fine(x) && At(s, i, "[" + (Print(x) + "]"))
    ensures Close(s, i + 1, 1) == Some(i + 1 + |Print(x)|) && s[i] == '[' && s[i + 1..i + 1 + |Print(x)|] == Print(x)
  {
    hide *;
    Between(s, i, "[", Print(x), "]");
    PrintBalanced(Square, x);
    BracketCloses(s, i, Print(x));
  }

  /** Only a parenthesised operand starts with a parenthesis. */
  lemma OpensOnlyParen(e: Expr)
    requires Fine(e) && !e.Eq? && !e.Paren?
    ensures |Print(e)| > 0 && Print(e)[0] != '('
  {
    hide IsNumber, FineSeg;
    if e.Lit? {
      LiteralIsPlain(e.l);
    }
  }

  /** The text of an equality: left operand, padding, operator, rest. */
  predicate Laid(s: string, left: string, before: string, op: Op, rest: string) {
    s == left + (before + (op.Text() + rest))
  }

  lemma LaidParts(s: string, left: string, before: string, op: Op, rest: string)
    requires Laid(s, left, before, op, rest)
    ensures At(s, 0, left) && At(s, |left|, before)
  {
  }

  lemma LaidSlices(s: string, left: string, before: string, op: Op, rest: string)
    requires Laid(s, left, before, op, rest)
    ensures |left| + |before| + |op.Text()| <= |s|
    ensures s[..|left| + |before|] == left + before && s[|left| + |before| + |op.Text()|..] == rest
  {
  }

  lemma EqualityIsNotWrapped(s: string, left: Expr, before: string, op: Op, rest: string)
    requires Fine(left) && !left.Eq? && Laid(s, Print(left), before, op, rest)
    ensures s != "" && (s[0] == '(' ==> !Wraps(s, 0, 0))
  {
    hide Wraps, IsNumber;
    if left.Paren? {
      LaidParts(s, Print(left), before, op, rest);
      WrapEnds(s, left.e);
    } else {
      OpensOnlyParen(left);
    }
  }

  lemma PadsEdged(pad: string, x: string)
    requires AllSpace(pad) && Edged(x)
    ensures pad + x != "" && (pad + x)[0] != '='
  {
  }

  lemma OperatorFound(s: string, op: Op, left: string, before: string, rest: string)
    requires Laid(s, left, before, op, rest) && Edged(left) && AllSpace(before) && rest != "" && rest[0] != '='
    requires FindEq(s, 0, 0) == FindEq(s, |left|, 0)
    ensures FindEq(s, 0, 0) == Some(Found(|left| + |before|, op))
  {
    hide *;
    LaidParts(s, left, before, op, rest);
    SpaceIsPlain(before);
    PlainSkip(s, |left|, before);
    OperatorStops(s, op, left, before, rest);
  }

  /** Where the scan of a printed equality finds its operator. */
  lemma EqualityIsFound(s: string, op: Op, left: Expr, before: string, rest: string)
    requires Fine(left) && !left.Eq? && AllSpace(before) && rest != "" && rest[0] != '='
    requires Laid(s, Print(left), before, op, rest)
    ensures FindEq(s, 0, 0) == Some(Found(|Print(left)| + |before|, op))
  {
    hide *;
    LaidParts(s, Print(left), before, op, rest);
    PrintEdged(left);
    TopSkip(s, 0, left);
    OperatorFound(s, op, Print(left), before, rest);
  }

  lemma SpaceIsPlain(pad: string)
    requires AllSpace(pad)
    ensures Plain(pad) && (pad != "" ==> pad[|pad| - 1] != '!')
  {
  }

  /** The characters around the operator. */
  lemma LaidChars(s: string, left: string, before: string, op: Op, rest: string)
    requires Laid(s, left, before, op, rest) && left != "" && rest != ""
    ensures var m := |left| + |before|;
      && m + 2 < |s|
      && s[m] == op.Text()[0] && s[m + 1] == op.Text()[1]
      && s[m + 2] == (if |op.Text()| == 3 then op.Text()[2] else rest[0])
      && s[m - 1] == (if before == "" then left[|left| - 1] else before[|before| - 1])
  {
  }

  lemma LeftIsThere(left: string, before: string)
    requires Edged(left) && AllSpace(before)
    ensures Trim(left + before) != ""
    ensures !Signs(if before == "" then left[|left| - 1] else before[|before| - 1])
  {
    TrimAfter(left, before);
    TrimEdged(left);
    hide Trim;
  }

  lemma SplitsHere(s: string, m: nat, op: Op, next: char)
    requires 0 < m && m + 2 < |s| && Trim(s[..m]) != "" && !Signs(s[m - 1]) && next != '='
    requires s[m] == op.Text()[0] && s[m + 1] == op.Text()[1]
    requires s[m + 2] == if |op.Text()| == 3 then op.Text()[2] else next
    ensures FindEq(s, m, 0) == Some(Found(m, op))
  {
    hide Trim;
  }

  lemma OperatorStops(s: string, op: Op, left: string, before: string, rest: string)
    requires Laid(s, left, before, op, rest) && Edged(left) && AllSpace(before) && rest != "" && rest[0] != '='
    ensures FindEq(s, |left| + |before|, 0) == Some(Found(|left| + |before|, op))
  {
    NotEmpty(left);
    hide *;
    LaidSlices(s, left, before, op, rest);
    LeftIsThere(left, before);
    LaidChars(s, left, before, op, rest);
    SplitsHere(s, |left| + |before|, op, rest[0]);
  }

  // One unfolding of the evaluator for each kind of text.

  lemma ResolveWrapped<V>(h: Host<V>, vals: V, x: Expr)
    requires Fine(x)
    ensures Resolve(h, vals, "(" + (Print(x) + ")")) == Resolve(h, vals, Print(x))
  {
    hide Fine, Print, Wraps, FindEq;
    var s := "(" + (Print(x) + ")");
    WrapEnds(s, x);
    TrimEdged(s);
    assert s[1..|s| - 1] == Print(x);
  }

  lemma ResolveSplit<V>(h: Host<V>, vals: V, s: string, i: nat, op: Op)
    requires Edged(s) && FindEq(s, 0, 0) == Some(Found(i, op)) && (s[0] == '(' ==> !Wraps(s, 0, 0))
    ensures i + |op.Text()| <= |s|
    ensures Resolve(h, vals, s) == h.Compare(op, Resolve(h, vals, s[..i]), Resolve(h, vals, s[i + |op.Text()|..]))
  {
    TrimEdged(s);
    NotEmpty(s);
    hide *;
    ResolveCut(h, vals, s, i, op);
  }

  lemma ResolveCut<V>(h: Host<V>, vals: V, s: string, i: nat, op: Op)
    requires s != "" && Trim(s) == s && FindEq(s, 0, 0) == Some(Found(i, op)) && (s[0] == '(' ==> !Wraps(s, 0, 0))
    ensures i + |op.Text()| <= |s|
    ensures Resolve(h, vals, s) == h.Compare(op, Resolve(h, vals, s[..i]), Resolve(h, vals, s[i + |op.Text()|..]))
  {
    SplitFits(s, i);
    hide Wraps, FindEq, Trim, Splits, OpAt, Op.Text, IsNumber, IsQuoted, ResolvedPath;
  }

  lemma NotEmpty(s: string)
    requires Edged(s)
    ensures s != ""
  {
  }

  /** Text without an operator at the top that starts neither with a parenthesis nor with a negation. */
  predicate Atomic(s: string) {
    Edged(s) && s[0] != '(' && s[0] != '!' && FindEq(s, 0, 0).None?
  }

  lemma NotHasNoOperator(x: Expr)
    requires Fine(x) && !x.Eq?
    ensures Edged("!" + Print(x)) && FindEq("!" + Print(x), 0, 0).None?
  {
    var s := "!" + Print(x);
    assert At(s, 0, s) && FindEq(s, |s|, 0).None?;
    NotIsFine(x);
    hide *;
    PrintEdged(Not(x));
    TopSkip(s, 0, Not(x));
  }

  lemma NotIsFine(x: Expr)
    requires Fine(x) && !x.Eq?
    ensures Fine(Not(x)) && Print(Not(x)) == "!" + Print(x)
  {
  }

  lemma ResolveBang<V>(h: Host<V>, vals: V, s: string)
    requires Edged(s) && FindEq(s, 0, 0).None? && s != "" && s[0] == '!'
    ensures Resolve(h, vals, s) == h.boolean(!h.truthy(Resolve(h, vals, s[1..])))
  {
    TrimEdged(s);
    hide FindEq, Edged, Wraps, Trim, ResolvedPath;
  }

  lemma ResolveNot<V>(h: Host<V>, vals: V, x: Expr)
    requires Fine(x) && !x.Eq?
    ensures Resolve(h, vals, "!" + Print(x)) == h.boolean(!h.truthy(Resolve(h, vals, Print(x))))
  {
    hide *;
    NotHasNoOperator(x);
    assert ("!" + Print(x))[1..] == Print(x);
    ResolveBang(h, vals, "!" + Print(x));
  }

  lemma ResolveLiteral<V>(h: Host<V>, vals: V, l: Literal)
    requires FineLiteral(l)
    ensures Resolve(h, vals, LiteralText(l)) == LiteralValue(h, l)
  {
    var s := LiteralText(l);
    LiteralIsPlain(l);
    assert At(s, 0, s);
    PlainSkip(s, 0, s);
    TrimEdged(s);
    assert s[0] != '(' && s[0] != '!' && FindEq(s, 0, 0).None?;
    hide FindEq, Plain, Edged, Signs;
    match l
    case Number(negative, whole, fraction) =>
      NumberReads(negative, whole, fraction);
      NumberChars(s);
      hide IsNumber, LiteralText;
    case Quoted(quote, body) =>
      if IsNumber(s) {
        NumberChars(s);
      }
      assert s[1..|s| - 1] == body;
      hide IsNumber;
    case True =>
    case False =>
    case Null =>
    case Undefined =>
  }

  lemma ResolveName<V>(h: Host<V>, vals: V, s: string)
    requires Atomic(s) && StartsName(s[0]) && !IsKeyword(s)
    ensures Resolve(h, vals, s) == ResolvedPath(h, vals, s)
  {
    TrimEdged(s);
    if IsNumber(s) {
      NumberChars(s);
    }
    hide FindEq, IsNumber, ResolvedPath, Edged;
  }

  lemma KeywordIsName(s: string)
    requires IsKeyword(s)
    ensures forall i :: 0 <= i < |s| ==> InName(s[i])
  {
  }

  lemma PathIsNoKeyword(head: string, segs: seq<Seg>)
    requires Fine(Path(head, segs))
    ensures var s := head + PrintSegs(segs); s != "" && StartsName(s[0]) && !IsKeyword(s)
  {
    var s := head + PrintSegs(segs);
    SegsEdged(segs);
    if segs != [] {
      assert s[|head|] == PrintSegs(segs)[0];
      hide IsKeyword, PrintSegs, FineSeg;
      if IsKeyword(s) {
        KeywordIsName(s);
      }
    } else {
      assert s == head;
    }
  }

  lemma PathIsAtomic(head: string, segs: seq<Seg>)
    requires Fine(Path(head, segs))
    ensures var s := Print(Path(head, segs)); Atomic(s) && StartsName(s[0]) && !IsKeyword(s)
  {
    var e := Path(head, segs);
    var s := Print(e);
    assert At(s, 0, s) && s == head + PrintSegs(segs) && FindEq(s, |s|, 0).None?;
    hide At, Print, PrintSegs, Fine, FindEq, Edged, IsKeyword;
    PrintEdged(e);
    NotEmpty(s);
    TopSkip(s, 0, e);
    PathIsNoKeyword(head, segs);
  }

  lemma {:induction false} PathSteps<V>(h: Host<V>, vals: V, s: string, i: nat, segs: seq<Seg>, cur: V)
    requires forall j :: 0 <= j < |segs| ==> FineSeg(segs[j])
    requires At(s, i, PrintSegs(segs))
    requires var n := i + |PrintSegs(segs)|; n == |s| || !InName(s[n])
    ensures var n := i + |PrintSegs(segs)|;
      PathFrom(h, vals, s, i, cur) == PathFrom(h, vals, s, n, EvalSegs(h, vals, cur, segs))
    decreases segs, 0
  {
    hide PathFrom, At, Resolve, FineSeg, EvalSeg, PrintSeg;
    if segs != [] {
      var n := i + |PrintSeg(segs[0])|;
      AtSplit(s, i, PrintSeg(segs[0]), PrintSegs(segs[1..]));
      SegsEdged(segs[1..]);
      if segs[1..] != [] {
        AtHead(s, n, PrintSegs(segs[1..]));
      }
      PathStep(h, vals, s, i, segs[0], cur);
      PathSteps(h, vals, s, n, segs[1..], EvalSeg(h, vals, cur, segs[0]));
    }
  }

  lemma DotEnds(s: string, i: nat, name: string)
    requires FineSeg(Dot(name)) && At(s, i, "." + name)
    requires var n := i + 1 + |name|; n == |s| || !InName(s[n])
    ensures i + 1 + |name| <= |s| && s[i] == '.' && s[i + 1..i + 1 + |name|] == name && name != ""
    ensures NameEnd(s, i + 1) == if IsName(name) then i + 1 + |name| else i + 1
    ensures !IsName(name) ==> DigitRun(s, i + 1) == i + 1 + |name|
  {
    AtSplit(s, i, ".", name);
    AtHead(s, i, ".");
    AtHead(s, i + 1, name);
    hide NameRun, DigitRun;
    if IsName(name) {
      NameRunIs(s, i + 1, name);
    } else {
      DigitRunIs(s, i + 1, name);
    }
  }

  lemma DotStep<V>(h: Host<V>, vals: V, s: string, i: nat, name: string, cur: V)
    requires FineSeg(Dot(name)) && At(s, i, "." + name)
    requires var n := i + 1 + |name|; n == |s| || !InName(s[n])
    ensures PathFrom(h, vals, s, i, cur) == PathFrom(h, vals, s, i + 1 + |name|, h.Get(cur, h.text(name)))
  {
    DotEnds(s, i, name);
    hide At, NameEnd, DigitRun, Resolve, FineSeg;
  }

  lemma IndexUnfolds<V>(h: Host<V>, vals: V, s: string, i: nat, j: nat, cur: V)
    requires i < |s| && s[i] == '[' && Close(s, i + 1, 1) == Some(j)
    ensures PathFrom(h, vals, s, i, cur) == PathFrom(h, vals, s, j + 1, h.Get(cur, Resolve(h, vals, s[i + 1..j])))
  {
    hide Resolve;
  }

  lemma IndexStep<V>(h: Host<V>, vals: V, s: string, i: nat, x: Expr, cur: V)
    requires Fine(x) && At(s, i, "[" + (Print(x) + "]")) && Resolve(h, vals, Print(x)) == Eval(h, vals, x)
    ensures PathFrom(h, vals, s, i, cur) == PathFrom(h, vals, s, i + |Print(x)| + 2, h.Get(cur, Eval(h, vals, x)))
  {
    hide Close, Resolve, Fine, Print, Eval, PathFrom;
    BracketEnds(s, i, x);
    IndexUnfolds(h, vals, s, i, i + 1 + |Print(x)|, cur);
  }

  lemma {:induction false} PathStep<V>(h: Host<V>, vals: V, s: string, i: nat, seg: Seg, cur: V)
    requires FineSeg(seg) && At(s, i, PrintSeg(seg))
    requires var n := i + |PrintSeg(seg)|; n == |s| || !InName(s[n])
    ensures PathFrom(h, vals, s, i, cur) == PathFrom(h, vals, s, i + |PrintSeg(seg)|, EvalSeg(h, vals, cur, seg))
    decreases seg, 0
  {
    hide At, PathFrom, Resolve;
    match seg
    case Dot(name) =>
      DotStep(h, vals, s, i, name, cur);
    case Index(x) =>
      RoundTrip(h, vals, x);
      IndexStep(h, vals, s, i, x, cur);
  }

  /** Parsing what was printed gives what the tree means, for every tree and every host. Equality chains
      without parentheses associate to the right. */
  lemma {:induction false} RoundTrip<V>(h: Host<V>, vals: V, e: Expr)
    requires Fine(e)
    ensures Resolve(h, vals, Print(e)) == Eval(h, vals, e)
    decreases e, 1
  {
    hide Resolve, ResolvedPath, IsNumber, FindEq, Edged, Atomic;
    match e
    case Paren(x) =>
      ResolveWrapped(h, vals, x);
      RoundTrip(h, vals, x);
    case Eq(op, left, before, after, right) =>
      ResolveEquality(h, vals, op, left, before, after, right);
      RoundTrip(h, vals, left);
      RoundTrip(h, vals, right);
    case Not(x) =>
      ResolveNot(h, vals, x);
      RoundTrip(h, vals, x);
    case Lit(l) =>
      ResolveLiteral(h, vals, l);
    case Path(head, segs) =>
      PathIsAtomic(head, segs);
      ResolveName(h, vals, Print(e));
      assert Print(e) + "" == Print(e);
      PathThenRest(h, vals, head, segs, "");
  }

  lemma HeadEnds(head: string, segs: seq<Seg>, rest: string)
    requires Fine(Path(head, segs)) && (rest != "" ==> !InName(rest[0]))
    ensures var s := head + PrintSegs(segs) + rest;
      At(s, |head|, PrintSegs(segs)) && NameEnd(s, 0) == |head| && s[..|head|] == head && |head| > 0
  {
    var s := head + PrintSegs(segs) + rest;
    SegsEdged(segs);
    assert segs != [] ==> s[|head|] == PrintSegs(segs)[0];
    assert segs == [] && rest != "" ==> s[|head|] == rest[0];
    hide FineSeg, PrintSegs, IsLetter, IsNumeral, IsBlank;
    assert s[..|head|] == head;
    NameRunIs(s, 0, head);
  }

  lemma ResolveHead<V>(h: Host<V>, vals: V, head: string, segs: seq<Seg>, rest: string)
    requires Fine(Path(head, segs)) && (rest != "" ==> !InName(rest[0]))
    ensures var s := head + PrintSegs(segs) + rest;
      At(s, |head|, PrintSegs(segs))
      && ResolvedPath(h, vals, s) == PathFrom(h, vals, s, |head|, h.Get(vals, h.text(head)))
  {
    HeadEnds(head, segs, rest);
    hide At, PrintSegs, NameEnd, PathFrom, Fine;
  }

  lemma PathThenRest<V>(h: Host<V>, vals: V, head: string, segs: seq<Seg>, rest: string)
    requires Fine(Path(head, segs)) && (rest != "" ==> !InName(rest[0]))
    ensures var s := head + PrintSegs(segs) + rest;
      ResolvedPath(h, vals, s) == PathFrom(h, vals, s, |head + PrintSegs(segs)|, Eval(h, vals, Path(head, segs)))
    decreases segs, 1
  {
    var s := head + PrintSegs(segs) + rest;
    var n := |head + PrintSegs(segs)|;
    hide ResolvedPath, PathFrom, At, InName, Fine, FineSeg, PrintSegs, EvalSegs, IsName, IsKeyword;
    assert rest != "" ==> s[n] == rest[0];
    FineSegs(head, segs);
    ResolveHead(h, vals, head, segs, rest);
    PathSteps(h, vals, s, |head|, segs, h.Get(vals, h.text(head)));
  }

  lemma FineSegs(head: string, segs: seq<Seg>)
    requires Fine(Path(head, segs))
    ensures forall j :: 0 <= j < |segs| ==> FineSeg(segs[j])
  {
  }

  /** What cannot go on a path: a character that neither separates nor belongs to a name, a dot without a
      name or an index behind it, a bracket that is never closed. */
  predicate Dead(rest: string) {
    && rest != ""
    && (rest[0] == '.' ==> |rest| == 1 || !(IsLetter(rest[1]) || IsNumeral(rest[1])))
    && (rest[0] == '[' ==> forall i :: 0 <= i < |rest| ==> rest[i] != ']')
    && !IsLetter(rest[0]) && !IsNumeral(rest[0])
  }

  lemma {:induction false} NeverCloses(s: string, j: nat, depth: nat)
    requires j <= |s| && forall i :: j <= i < |s| ==> s[i] != ']'
    ensures Close(s, j, depth).None?
    decreases |s| - j
  {
    if j < |s| && depth > 0 {
      NeverCloses(s, j + 1, if s[j] == '[' then depth + 1 else depth);
    }
  }

  /** A path followed by something that cannot go on it is undefined, whatever the path reached. */
  lemma DeadPathIsUndefined<V>(h: Host<V>, vals: V, head: string, segs: seq<Seg>, rest: string)
    requires Fine(Path(head, segs)) && Dead(rest)
    ensures ResolvedPath(h, vals, head + PrintSegs(segs) + rest) == h.undefined
  {
    var s, n := head + PrintSegs(segs) + rest, |head + PrintSegs(segs)|;
    AlphabetsAgree(rest[0]);
    PathThenRest(h, vals, head, segs, rest);
    assert forall i :: 0 <= i < |rest| ==> s[n + i] == rest[i];
    if rest[0] == '[' {
      NeverCloses(s, n + 1, 1);
    } else if rest[0] == '.' && |rest| > 1 {
      AlphabetsAgree(rest[1]);
    }
    hide ResolvedPath, Fine, PrintSegs, Resolve, Close, Eval, IsLetter, IsNumeral;
  }

  lemma ResolveLaid<V>(h: Host<V>, vals: V, s: string, op: Op, left: Expr, before: string, rest: string)
    requires Fine(left) && !left.Eq? && AllSpace(before) && rest != "" && rest[0] != '='
    requires Edged(s) && Laid(s, Print(left), before, op, rest)
    ensures Resolve(h, vals, s)
         == h.Compare(op, Resolve(h, vals, Print(left) + before), Resolve(h, vals, rest))
  {
    hide *;
    EqualityIsNotWrapped(s, left, before, op, rest);
    EqualityIsFound(s, op, left, before, rest);
    LaidSlices(s, Print(left), before, op, rest);
    ResolveSplit(h, vals, s, |Print(left)| + |before|, op);
  }

  lemma ResolvePadded<V>(h: Host<V>, vals: V, before: string, x: string, after: string)
    requires AllSpace(before) && AllSpace(after)
    ensures Resolve(h, vals, x + before) == Resolve(h, vals, x) && Resolve(h, vals, after + x) == Resolve(h, vals, x)
  {
    hide *;
    TrimAfter(x, before);
    SameTrim(h, vals, x + before, x);
    TrimBefore(after, x);
    SameTrim(h, vals, after + x, x);
  }

  lemma ResolveEquality<V>(h: Host<V>, vals: V, op: Op, left: Expr, before: string, after: string, right: Expr)
    requires Fine(Eq(op, left, before, after, right))
    ensures Resolve(h, vals, Print(Eq(op, left, before, after, right)))
         == h.Compare(op, Resolve(h, vals, Print(left)), Resolve(h, vals, Print(right)))
  {
    var e := Eq(op, left, before, after, right);
    assert Fine(left) && !left.Eq? && Fine(right) && AllSpace(before) && AllSpace(after);
    assert Laid(Print(e), Print(left), before, op, after + Print(right));
    hide *;
    PrintEdged(e);
    PrintEdged(right);
    PadsEdged(after, Print(right));
    ResolveLaid(h, vals, Print(e), op, left, before, after + Print(right));
    ResolvePadded(h, vals, before, Print(left), after);
    ResolvePadded(h, vals, before, Print(right), after);
  }

  // ------------------------------------------------------------ strings of any content

  /** The scan finds an operator exactly where one splits the text outside all brackets. */
  lemma {:induction false} FindEqIff(s: string, i: nat, depth: int)
    requires i <= |s|
    ensures FindEq(s, i, depth).Some? <==> exists k :: i <= k < |s| && SplitsAt(s, i, depth, k)
    decreases |s| - i
  {
    if i < |s| {
      var n, next := i + 1, depth + Delta(Both, s[i]);
      FindEqIff(s, n, next);
      FindEqStep(s, i, depth);
      hide FindEq;
      forall k: nat | i < k < |s| ensures SplitsAt(s, i, depth, k) <==> SplitsAt(s, n, next, k) {
        SplitsFurther(s, i, depth, k);
      }
      hide SplitsAt;
      if k :| i <= k < |s| && SplitsAt(s, i, depth, k) {
        assert k > i ==> SplitsAt(s, n, next, k);
      }
      if k :| n <= k < |s| && SplitsAt(s, n, next, k) {
        assert SplitsAt(s, i, depth, k);
      }
    }
  }

  lemma FindEqStep(s: string, i: nat, depth: int)
    requires i < |s|
    ensures FindEq(s, i, depth).Some? <==> SplitsAt(s, i, depth, i) || FindEq(s, i + 1, depth + Delta(Both, s[i])).Some?
  {
    assert s[i..i] == "";
    BracketDoesNotSplit(s, i);
    hide Splits;
  }

  lemma SplitsFurther(s: string, i: nat, depth: int, k: nat)
    requires i < k < |s|
    ensures SplitsAt(s, i, depth, k) <==> SplitsAt(s, i + 1, depth + Delta(Both, s[i]), k)
  {
    assert s[i..k] == [s[i]] + s[i + 1..k];
    hide Splits;
  }

  predicate SplitsAt(s: string, i: nat, depth: int, k: nat)
    requires i <= k < |s|
  {
    Splits(s, k) && depth + Net(Both, s[i..k]) == 0
  }

  lemma BracketDoesNotSplit(s: string, i: nat)
    requires i < |s|
    ensures Splits(s, i) ==> Delta(Both, s[i]) == 0
  {
  }

  /** An equality operator in a string, outside the brackets of the string. */
  predicate OpenOperator(body: string, i: nat) {
    && i + 1 < |body| && (body[i] == '=' || body[i] == '!') && body[i + 1] == '='
    && (i > 0 ==> body[i - 1] != '=' && body[i - 1] != '!')
    && Net(Both, body[..i]) == 0
  }

  lemma QuotedSplitsIff(quote: char, body: string, i: nat)
    requires quote == '"' || quote == '\''
    requires i < |body|
    ensures var s := [quote] + body + [quote]; SplitsAt(s, 0, 0, i + 1) <==> OpenOperator(body, i)
  {
    var s := [quote] + body + [quote];
    assert s[0..i + 1] == [quote] + body[..i];
    assert Net(Both, s[0..i + 1]) == Net(Both, body[..i]) by {
      assert s[0..i + 1][1..] == body[..i];
    }
    assert s[i + 1] == body[i] && s[i] == (if i == 0 then quote else body[i - 1]);
    assert s[i + 2] == (if i + 1 < |body| then body[i + 1] else quote);
    TrimKeeps(s[..i + 1]);
    hide Trim, Net;
  }

  lemma {:induction false} TrimKeeps(x: string)
    requires x != "" && !IsSpace(x[0])
    ensures Trim(x) != ""
  {
    if IsSpace(x[|x| - 1]) {
      TrimKeeps(x[..|x| - 1]);
    }
  }

  lemma QuotedFoundIff(quote: char, body: string)
    requires quote == '"' || quote == '\''
    ensures FindEq([quote] + body + [quote], 0, 0).Some? <==> exists i :: 0 <= i < |body| && OpenOperator(body, i)
  {
    var s := [quote] + body + [quote];
    FindEqIff(s, 0, 0);
    hide FindEq, OpenOperator;
    forall i: nat | i < |body| ensures SplitsAt(s, 0, 0, i + 1) <==> OpenOperator(body, i) {
      QuotedSplitsIff(quote, body, i);
    }
    assert !SplitsAt(s, 0, 0, 0) && !SplitsAt(s, 0, 0, |s| - 1);
    if k :| 0 <= k < |s| && SplitsAt(s, 0, 0, k) {
      assert 0 < k && OpenOperator(body, k - 1);
    }
  }

  /** The text is cut at an operator and its two parts are compared. */
  ghost predicate CutAt<V>(h: Host<V>, vals: V, s: string, i: nat, op: Op) {
    && 0 < i && i + |op.Text()| <= |s| && s[i..i + |op.Text()|] == op.Text()
    && Resolve(h, vals, s) == Compared(h, op, Resolve(h, vals, s[..i]), Resolve(h, vals, s[i + |op.Text()|..]))
  }

  /** A quoted string by itself, whatever it holds, has its text as value exactly as long as no equality
      operator stands in it outside brackets; then it is cut there and compared instead. */
  lemma StringIff<V>(h: Host<V>, vals: V, quote: char, body: string)
    requires quote == '"' || quote == '\''
    ensures var s := [quote] + body + [quote];
      if exists i :: 0 <= i < |body| && OpenOperator(body, i) then
        exists i: nat, op: Op :: CutAt(h, vals, s, i, op)
      else Resolve(h, vals, s) == h.text(body)
  {
    var s := [quote] + body + [quote];
    QuotedEnds(quote, body);
    QuotedFoundIff(quote, body);
    hide *;
    if FindEq(s, 0, 0).Some? {
      var i, op := FindEq(s, 0, 0).value.index, FindEq(s, 0, 0).value.op;
      assert FindEq(s, 0, 0) == Some(Found(i, op));
      ResolveCut(h, vals, s, i, op);
      FoundStands(s, i, op);
      IsCut(h, vals, s, i, op);
    } else {
      ResolveQuoted(h, vals, quote, body);
    }
  }

  lemma FoundStands(s: string, i: nat, op: Op)
    requires FindEq(s, 0, 0) == Some(Found(i, op))
    ensures 0 < i && i + |op.Text()| <= |s| && s[i..i + |op.Text()|] == op.Text()
  {
    SplitFits(s, i);
    TextStands(s, i);
    hide FindEq, Splits, OpAt, Op.Text;
  }

  lemma IsCut<V>(h: Host<V>, vals: V, s: string, i: nat, op: Op)
    requires 0 < i && i + |op.Text()| <= |s| && s[i..i + |op.Text()|] == op.Text()
    requires Resolve(h, vals, s) == h.Compare(op, Resolve(h, vals, s[..i]), Resolve(h, vals, s[i + |op.Text()|..]))
    ensures CutAt(h, vals, s, i, op)
  {
    hide Resolve, Op.Text;
  }

  lemma QuotedEnds(quote: char, body: string)
    requires quote == '"' || quote == '\''
    ensures var s := [quote] + body + [quote]; s != "" && Trim(s) == s && s[0] == quote && quote != '('
  {
    var s := [quote] + body + [quote];
    assert s[|s| - 1] == quote;
  }

  lemma ResolveQuoted<V>(h: Host<V>, vals: V, quote: char, body: string)
    requires quote == '"' || quote == '\''
    requires FindEq([quote] + body + [quote], 0, 0).None?
    ensures Resolve(h, vals, [quote] + body + [quote]) == h.text(body)
  {
    var s := [quote] + body + [quote];
    QuotedEnds(quote, body);
    if IsNumber(s) {
      NumberChars(s);
    }
    assert s[1..|s| - 1] == body && s[|s| - 1] == quote;
    hide FindEq, Wraps, ResolvedPath, IsNumber, Trim;
  }

  lemma TextStands(s: string, i: nat)
    requires i < |s| && Splits(s, i)
    ensures i + |OpAt(s, i).Text()| <= |s| && s[i..i + |OpAt(s, i).Text()|] == OpAt(s, i).Text()
  {
    hide Trim;
  }

  lemma LoneQuote<V>(h: Host<V>, vals: V)
    ensures Resolve(h, vals, "'") == h.undefined
  {
    var s := "'";
    assert Trim(s) == s && FindEq(s, 0, 0).None?;
    if IsNumber(s) {
      NumberChars(s);
    }
    hide Trim, FindEq, IsNumber, Wraps;
  }

  /** Such a string: its quotes do not protect the operator, and the comparison is of two lone quotes. */
  lemma QuotedEquality<V>(h: Host<V>, vals: V)
    ensures OpenOperator("==", 0)
    ensures Resolve(h, vals, "'=='") == Compared(h, LooseEq, h.undefined, h.undefined)
  {
    var s := "'=='";
    assert "=="[..0] == "";
    assert Trim(s) == s && s[..1] == "'" && s[3..] == "'";
    TrimKeeps(s[..1]);
    hide Trim;
    assert FindEq(s, 1, 0) == Some(Found(1, LooseEq));
    assert FindEq(s, 0, 0) == FindEq(s, 1, 0);
    hide FindEq, Wraps, ResolvedPath, IsNumber, IsQuoted;
    LoneQuote(h, vals);
    SplitFits(s, 1);
  }

  /** Nothing but white space is undefined. */
  lemma BlankIsUndefined<V>(h: Host<V>, vals: V, pad: string)
    requires AllSpace(pad)
    ensures Resolve(h, vals, pad) == h.undefined
  {
    TrimBefore(pad, "");
    assert pad + "" == pad;
  }

  lemma EndsWithOperator(s: string, m: nat, op: Op)
    requires 0 < m && |s| == m + |op.Text()| && s[m..] == op.Text() && Trim(s[..m]) != "" && !Signs(s[m - 1])
    ensures FindEq(s, m, 0) == Some(Found(m, op)) && Splits(s, m)
  {
    hide Trim;
    assert s[m] == s[m..][0] && s[m + 1] == s[m..][1];
    assert |op.Text()| == 3 ==> s[m + 2] == s[m..][2];
  }

  lemma OperatorIsLast(s: string, left: Expr, before: string, op: Op)
    requires Fine(left) && !left.Eq? && AllSpace(before) && Laid(s, Print(left), before, op, "")
    ensures FindEq(s, 0, 0) == Some(Found(|Print(left)| + |before|, op))
    ensures s != "" && Trim(s) == s && (s[0] == '(' ==> !Wraps(s, 0, 0))
  {
    var m := |Print(left)| + |before|;
    hide *;
    PrintEdged(left);
    EndsStay(s, Print(left), before, op);
    NotEmpty(Print(left));
    LaidParts(s, Print(left), before, op, "");
    LaidSlices(s, Print(left), before, op, "");
    TopSkip(s, 0, left);
    SpaceIsPlain(before);
    PlainSkip(s, |Print(left)|, before);
    LeftIsThere(Print(left), before);
    LastPart(s, Print(left), before, op);
    EndsWithOperator(s, m, op);
    EqualityIsNotWrapped(s, left, before, op, "");
  }

  lemma EndsStay(s: string, left: string, before: string, op: Op)
    requires Edged(left) && Laid(s, left, before, op, "")
    ensures s != "" && Trim(s) == s
  {
    assert s[0] == left[0] && s[|s| - 1] == '=';
  }

  lemma LastPart(s: string, left: string, before: string, op: Op)
    requires Laid(s, left, before, op, "") && left != ""
    ensures var m := |left| + |before|;
      && 0 < m && |s| == m + |op.Text()| && s[m..] == op.Text()
      && s[m - 1] == (if before == "" then left[|left| - 1] else before[|before| - 1])
  {
    hide Op.Text;
    var x := left + before;
    assert op.Text() + "" == op.Text();
    assert left + (before + op.Text()) == x + op.Text();
    LastOf(s, x, op.Text());
  }

  lemma LastOf(s: string, x: string, y: string)
    requires s == x + y && x != ""
    ensures |s| == |x| + |y| && s[|x|..] == y && s[|x| - 1] == x[|x| - 1]
  {
  }

  /** An equality without its right operand compares with undefined. */
  lemma MissingOperand<V>(h: Host<V>, vals: V, left: Expr, before: string, op: Op)
    requires Fine(left) && !left.Eq? && AllSpace(before)
    ensures Resolve(h, vals, Print(left) + before + op.Text()) == Compared(h, op, Eval(h, vals, left), h.undefined)
  {
    assert AllSpace("");
    hide *;
    LastIsCut(h, vals, left, before, op);
    ResolvePadded(h, vals, before, Print(left), "");
    RoundTrip(h, vals, left);
    BlankIsUndefined(h, vals, "");
    CompareIs(h, op, Eval(h, vals, left), h.undefined);
  }

  lemma CompareIs<V>(h: Host<V>, op: Op, a: V, b: V)
    ensures h.Compare(op, a, b) == Compared(h, op, a, b)
  {
  }

  lemma LastIsCut<V>(h: Host<V>, vals: V, left: Expr, before: string, op: Op)
    requires Fine(left) && !left.Eq? && AllSpace(before)
    ensures Resolve(h, vals, Print(left) + before + op.Text())
         == h.Compare(op, Resolve(h, vals, Print(left) + before), Resolve(h, vals, ""))
  {
    hide *;
    var s, m := Print(left) + before + op.Text(), |Print(left)| + |before|;
    LaidLast(Print(left), before, op);
    OperatorIsLast(s, left, before, op);
    ResolveCut(h, vals, s, m, op);
  }

  lemma LaidLast(left: string, before: string, op: Op)
    ensures var s := left + before + op.Text();
      && Laid(s, left, before, op, "")
      && s[..|left| + |before|] == left + before && s[|left| + |before| + |op.Text()|..] == ""
  {
  }

  /** A chain `a op b op2 c` means `a op (b op2 c)`. */
  lemma ChainsAssociateRight<V>(h: Host<V>, vals: V, a: Expr, op: Op, b: Expr, op2: Op, c: Expr)
    requires Fine(a) && !a.Eq? && Fine(b) && !b.Eq? && Fine(c)
    ensures Resolve(h, vals, Print(a) + (op.Text() + (Print(b) + (op2.Text() + Print(c)))))
         == Compared(h, op, Eval(h, vals, a), Compared(h, op2, Eval(h, vals, b), Eval(h, vals, c)))
  {
    hide Resolve, Print, IsLetter, IsNumeral, IsBlank, Compared;
    var inner := Eq(op2, b, "", "", c);
    var e := Eq(op, a, "", "", inner);
    assert AllSpace("") && Fine(inner) && Fine(e);
    NoPads(op2, b, c);
    NoPads(op, a, inner);
    hide Fine, AllSpace;
    RoundTrip(h, vals, e);
  }

  lemma NoPads(op: Op, left: Expr, right: Expr)
    ensures Print(Eq(op, left, "", "", right)) == Print(left) + (op.Text() + Print(right))
  {
    assert "" + Print(right) == Print(right);
    assert "" + (op.Text() + Print(right)) == op.Text() + Print(right);
  }
}
