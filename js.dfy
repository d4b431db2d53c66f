/**
 * The slice of JavaScript semantics that the server and the client rely on:
 * JSON values and objects, truthiness, `===`, `String(v)`, `Array.prototype.join`,
 * `String.prototype.includes` and `trim`, and `Array.prototype.slice` with
 * negative indices.
 */
module Js {
  import opened Wrappers

  /** A JSON value as request bodies and stored configurations hold it. Numbers are integers here. */
  datatype Value =
    | Undefined
    | Null
    | Bool(b: bool)
    | Num(n: int)
    | Str(s: string)
    | Arr(items: seq<Value>)

  /** A plain object; a key that is absent reads as `undefined`. */
  type Object = map<string, Value>

  /** A chat message object `{ role, content }`. */
  datatype Message = Message(role: Value, content: Value)

  /** `o[key]` */
  function Get(o: Object, key: string): Value {
    if key in o then o[key] else Undefined
  }

  /** JavaScript truthiness: `undefined`, `null`, `false`, `0` and `""` are falsy, every array is truthy. */
  predicate Truthy(v: Value) {
    match v
    case Undefined => false
    case Null => false
    case Bool(b) => b
    case Num(n) => n != 0
    case Str(s) => s != ""
    case Arr(_) => true
  }

  /** `a || b` yields its left operand when that is truthy, its right operand otherwise. */
  function Or(a: Value, b: Value): (r: Value)
    ensures Truthy(a) ==> r == a
    ensures !Truthy(a) ==> r == b
  {
    if Truthy(a) then a else b
  }

  /**
   * `a === b`. Arrays compare by reference; the arrays in this model all come from
   * separately parsed JSON, so no two of them are the same object.
   */
  predicate StrictEquals(a: Value, b: Value) {
    a == b && !a.Arr?
  }

  // ---------------------------------------------------------------- String(v)

  function Digit(d: nat): char
    requires d < 10
  {
    "0123456789"[d]
  }

  function NatToDecimal(n: nat): (r: string)
    ensures |r| > 0
    ensures forall k :: 0 <= k < |r| ==> '0' <= r[k] <= '9'
  {
    if n < 10 then [Digit(n)] else NatToDecimal(n / 10) + [Digit(n % 10)]
  }

  function IntToDecimal(n: int): string {
    if n < 0 then "-" + NatToDecimal(-n) else NatToDecimal(n)
  }

  /** `String(v)`, which is also what a template literal `${v}` inserts. */
  function ToString(v: Value): string
    decreases v, 1
  {
    match v
    case Undefined => "undefined"
    case Null => "null"
    case Bool(b) => if b then "true" else "false"
    case Num(n) => IntToDecimal(n)
    case Str(s) => s
    case Arr(items) => Join(items, ",")
  }

  /** `items.join(sep)`: `undefined` and `null` elements contribute the empty string. */
  function Join(items: seq<Value>, sep: string): string
    decreases items, 0
  {
    if |items| == 0 then ""
    else
      var head := if items[0].Undefined? || items[0].Null? then "" else ToString(items[0]);
      if |items| == 1 then head else head + sep + Join(items[1..], sep)
  }

  /** `${o[key]}` in a template literal. */
  function FieldText(o: Object, key: string): string {
    ToString(Get(o, key))
  }

  /** `strings.join(sep)` for a list of strings. */
  function JoinStrings(items: seq<string>, sep: string): string {
    if |items| == 0 then ""
    else if |items| == 1 then items[0]
    else items[0] + sep + JoinStrings(items[1..], sep)
  }

  // ---------------------------------------------------------------- substrings

  /** `t` occurs in `s` starting at index `i`. */
  ghost predicate OccursAt(s: string, t: string, i: int) {
    0 <= i <= |s| - |t| && s[i..i + |t|] == t
  }

  /** `s.includes(t)` */
  ghost predicate Includes(s: string, t: string) {
    exists i :: OccursAt(s, t, i)
  }

  /** `s.includes(t)`, searching from index `i` on. */
  function ContainsFrom(s: string, t: string, i: nat): (r: bool)
    ensures r <==> exists j :: i <= j && OccursAt(s, t, j)
    decreases |s| - i
  {
    if i + |t| > |s| then false
    else if s[i..i + |t|] == t then assert OccursAt(s, t, i); true
    else
      assert forall j :: i <= j && OccursAt(s, t, j) ==> j == i || i + 1 <= j;
      ContainsFrom(s, t, i + 1)
  }

  /** `s.includes(t)`, computed. */
  function Contains(s: string, t: string): (r: bool)
    ensures r <==> Includes(s, t)
  {
    ContainsFrom(s, t, 0)
  }

  lemma IncludesMiddle(a: string, t: string, b: string)
    ensures Includes(a + t + b, t)
  {
    var s := a + t + b;
    assert s[|a|..|a| + |t|] == t;
    assert OccursAt(s, t, |a|);
  }

  lemma IncludesPrefix(t: string, b: string)
    ensures Includes(t + b, t)
  {
    IncludesMiddle("", t, b);
    assert "" + t + b == t + b;
  }

  lemma IncludesSuffix(a: string, t: string)
    ensures Includes(a + t, t)
  {
    IncludesMiddle(a, t, "");
    assert a + t + "" == a + t;
  }

  /** Rewriting the tail of an included text by an equal one. */
  lemma IncludesRewrite(s: string, a: string, b: string, c: string)
    requires Includes(s, a + b) && b == c
    ensures Includes(s, a + c)
  {
  }

  /** Text that contains `t` still contains it after anything is put in front of it or after it. */
  lemma IncludesWithin(a: string, s: string, b: string, t: string)
    requires Includes(s, t)
    ensures Includes(a + s + b, t)
  {
    var i :| OccursAt(s, t, i);
    var w := a + s + b;
    assert w[|a| + i..|a| + i + |t|] == s[i..i + |t|];
    assert OccursAt(w, t, |a| + i);
  }

  /** A text that lacks a character of `t` cannot contain `t`. */
  lemma MissingCharExcludes(s: string, t: string, c: char)
    requires c in t && c !in s
    ensures !Includes(s, t)
  {
    forall i | 0 <= i <= |s| - |t| ensures !OccursAt(s, t, i) {
      var k :| 0 <= k < |t| && t[k] == c;
      assert s[i..i + |t|][k] == s[i + k];
    }
  }

  lemma MissingCharExcludesConcat(a: string, b: string, t: string, c: char)
    requires c in t && c !in a && c !in b
    ensures !Includes(a + b, t)
  {
    forall k | 0 <= k < |a + b| ensures (a + b)[k] != c {
      if k < |a| { assert (a + b)[k] == a[k]; } else { assert (a + b)[k] == b[k - |a|]; }
    }
    MissingCharExcludes(a + b, t, c);
  }

  /**
   * The first character of `t` occurs in `p + q + r` only at the start of `q`, and `t`
   * does not start there (it differs from `q` at offset `k`): so the text lacks `t`.
   */
  lemma AnchorExcludes(p: string, q: string, r: string, t: string, k: nat)
    requires |t| > 0 && |q| > 0 && q[0] == t[0]
    requires t[0] !in p && t[0] !in q[1..] && t[0] !in r
    requires k < |q| && k < |t| && q[k] != t[k]
    ensures !Includes(p + q + r, t)
  {
    var s := p + q + r;
    forall i | 0 <= i <= |s| - |t| ensures !OccursAt(s, t, i) {
      if i < |p| {
        assert s[i] == p[i];
      } else if i == |p| {
        assert s[i + k] == q[k];
        assert s[i..i + |t|][k] == s[i + k];
      } else if i < |p| + |q| {
        assert s[i] == q[1..][i - |p| - 1];
      } else {
        assert s[i] == r[i - |p| - |q|];
      }
      assert s[i..i + |t|][0] == s[i];
    }
  }

  // ---------------------------------------------------------------- templates

  /** The text of a template literal, given as its pieces in order. */
  function Concat(pieces: seq<string>): string {
    if |pieces| == 0 then "" else pieces[0] + Concat(pieces[1..])
  }

  lemma ConcatSplit(pieces: seq<string>, i: nat)
    requires i < |pieces|
    ensures Concat(pieces) == Concat(pieces[..i]) + pieces[i] + Concat(pieces[i + 1..])
  {
    assert pieces == pieces[..i] + pieces[i..];
    ConcatAppend(pieces[..i], pieces[i..]);
    assert pieces[i..][1..] == pieces[i + 1..];
    assert Concat(pieces[i..]) == pieces[i] + Concat(pieces[i + 1..]);
  }

  lemma {:induction false} ConcatAppend(a: seq<string>, b: seq<string>)
    ensures Concat(a + b) == Concat(a) + Concat(b)
  {
    if a == [] {
      assert a + b == b;
    } else {
      assert (a + b)[1..] == a[1..] + b;
      ConcatAppend(a[1..], b);
    }
  }

  /** Cutting a prefix of a sequence in two. */
  lemma SliceJoin(s: seq<string>, i: nat, j: nat)
    requires i <= j <= |s|
    ensures s[..j] == s[..i] + s[i..j]
  {
    assert s[..j][..i] == s[..i];
    assert s[..j][i..] == s[i..j];
  }

  /** The text of a template splits around any run of consecutive pieces. */
  lemma ConcatRun(pieces: seq<string>, i: nat, j: nat)
    requires i <= j <= |pieces|
    ensures Concat(pieces) == Concat(pieces[..i]) + Concat(pieces[i..j]) + Concat(pieces[j..])
  {
    assert pieces == pieces[..j] + pieces[j..];
    ConcatAppend(pieces[..j], pieces[j..]);
    SliceJoin(pieces, i, j);
    ConcatAppend(pieces[..i], pieces[i..j]);
  }

  lemma ConcatOne(pieces: seq<string>, i: nat)
    requires i < |pieces|
    ensures Concat(pieces[i..i + 1]) == pieces[i]
  {
    assert pieces[i..i + 1][1..] == [];
  }

  lemma ConcatPair(pieces: seq<string>, i: nat)
    requires i + 1 < |pieces|
    ensures Concat(pieces[i..i + 2]) == pieces[i] + pieces[i + 1]
  {
    assert pieces[i..i + 2][1..] == pieces[i + 1..i + 2];
    ConcatOne(pieces, i + 1);
  }

  /** Two consecutive pieces `a` and `b` of a template appear together in its text. */
  lemma ConcatIncludesPair(pieces: seq<string>, i: nat, a: string, b: string)
    requires i + 1 < |pieces| && pieces[i] == a && pieces[i + 1] == b
    ensures Includes(Concat(pieces), a + b)
  {
    ConcatIncludesRun(pieces, i, i + 2);
    ConcatPair(pieces, i);
  }

  /** Every run of consecutive pieces of a template appears verbatim in its text. */
  lemma ConcatIncludesRun(pieces: seq<string>, i: nat, j: nat)
    requires i <= j <= |pieces|
    ensures Includes(Concat(pieces), Concat(pieces[i..j]))
  {
    ConcatRun(pieces, i, j);
    IncludesMiddle(Concat(pieces[..i]), Concat(pieces[i..j]), Concat(pieces[j..]));
  }

  /** The ECMAScript WhiteSpace and LineTerminator characters, which `trim` removes. */
  predicate IsWhitespace(c: char) {
    || c == '\t' || c == '\n' || c == '\U{000B}' || c == '\U{000C}' || c == '\r' || c == ' '
    || c == '\U{00A0}' || c == '\U{1680}' || ('\U{2000}' <= c <= '\U{200A}')
    || c == '\U{2028}' || c == '\U{2029}' || c == '\U{202F}' || c == '\U{205F}'
    || c == '\U{3000}' || c == '\U{FEFF}'
  }

  predicate AllWhitespace(s: string) {
    forall k :: 0 <= k < |s| ==> IsWhitespace(s[k])
  }

  function TrimStart(s: string): (r: string)
    ensures |r| <= |s| && r == s[|s| - |r|..]
    ensures AllWhitespace(s[..|s| - |r|])
    ensures r != [] ==> !IsWhitespace(r[0])
  {
    if s != [] && IsWhitespace(s[0]) then
      var r := TrimStart(s[1..]);
      assert s[..|s| - |r|] == [s[0]] + s[1..][..|s[1..]| - |r|];
      r
    else s
  }

  function TrimEnd(s: string): (r: string)
    ensures |r| <= |s| && r == s[..|r|]
    ensures AllWhitespace(s[|r|..])
    ensures r != [] ==> !IsWhitespace(r[|r| - 1])
  {
    if s != [] && IsWhitespace(s[|s| - 1]) then
      var r := TrimEnd(s[..|s| - 1]);
      assert s[|r|..] == s[..|s| - 1][|r|..] + [s[|s| - 1]];
      r
    else s
  }

  /** `s.trim()` */
  function Trim(s: string): string {
    TrimEnd(TrimStart(s))
  }

  /** `trim` removes whitespace around a text and nothing of a text that starts and ends with a non-space. */
  lemma {:induction false} TrimStartPadded(a: string, m: string)
    requires AllWhitespace(a) && m != [] && !IsWhitespace(m[0])
    ensures TrimStart(a + m) == m
  {
    if a != [] {
      assert (a + m)[1..] == a[1..] + m;
      TrimStartPadded(a[1..], m);
    } else {
      assert a + m == m;
    }
  }

  lemma {:induction false} TrimEndPadded(m: string, b: string)
    requires AllWhitespace(b) && m != [] && !IsWhitespace(m[|m| - 1])
    ensures TrimEnd(m + b) == m
  {
    if b != [] {
      assert (m + b)[..|m + b| - 1] == m + b[..|b| - 1];
      TrimEndPadded(m, b[..|b| - 1]);
    } else {
      assert m + b == m;
    }
  }

  /** `trim` of a layout followed by two texts that start and end visibly gives back the two texts. */
  lemma TrimLeading(a: string, m1: string, m2: string)
    requires AllWhitespace(a) && m1 != [] && !IsWhitespace(m1[0])
    requires m2 != [] && !IsWhitespace(m2[|m2| - 1])
    ensures Trim(a + m1 + m2) == m1 + m2
  {
    var m := m1 + m2;
    assert m[0] == m1[0] && m[|m| - 1] == m2[|m2| - 1];
    TrimPadded(a, m, "");
    assert a + m + "" == a + m1 + m2;
  }

  /** A text ends with the last character of its last non-empty part. */
  lemma LastOfAppend(a: string, b: string)
    requires b != []
    ensures (a + b)[|a + b| - 1] == b[|b| - 1]
  {
  }

  /** The text of a template ends with the last character of its last piece. */
  lemma ConcatEndsWith(pieces: seq<string>)
    requires |pieces| > 0 && pieces[|pieces| - 1] != []
    ensures var m := Concat(pieces); m != [] && m[|m| - 1] == pieces[|pieces| - 1][|pieces[|pieces| - 1]| - 1]
  {
    var n := |pieces|;
    ConcatSplit(pieces, n - 1);
    assert pieces[n..] == [];
    LastOfAppend(Concat(pieces[..n - 1]), pieces[n - 1]);
  }

  /** A text opens with the first of the parts it is joined from. */
  lemma PrefixOfJoin(a: string, b: string, c: string)
    ensures (a + b + c)[..|a|] == a
  {
  }

  lemma TrimPadded(a: string, m: string, b: string)
    requires AllWhitespace(a) && AllWhitespace(b)
    requires m != [] && !IsWhitespace(m[0]) && !IsWhitespace(m[|m| - 1])
    ensures Trim(a + m + b) == m
  {
    assert a + m + b == a + (m + b);
    TrimStartPadded(a, m + b);
    TrimEndPadded(m, b);
  }

  /**
   * A template literal whose text is layout whitespace, then pieces that start and
   * end with a visible character, then layout whitespace, trims to exactly its pieces.
   */
  lemma TemplateExact(lead: string, pieces: seq<string>, trail: string)
    requires AllWhitespace(lead) && AllWhitespace(trail)
    requires |pieces| > 0 && pieces[0] != [] && !IsWhitespace(pieces[0][0])
    requires pieces[|pieces| - 1] != [] && !IsWhitespace(pieces[|pieces| - 1][|pieces[|pieces| - 1]| - 1])
    ensures Trim(lead + Concat(pieces) + trail) == Concat(pieces)
  {
    var n := |pieces|;
    var m := Concat(pieces);
    assert m[0] == pieces[0][0];
    ConcatSplit(pieces, n - 1);
    assert pieces[n..] == [];
    assert m == Concat(pieces[..n - 1]) + pieces[n - 1];
    assert m[|m| - 1] == pieces[n - 1][|pieces[n - 1]| - 1];
    TrimPadded(lead, m, trail);
  }

  /** `trimStart` stops at the first visible character. */
  lemma TrimStartStopsBefore(s: string, p: nat)
    requires p < |s| && !IsWhitespace(s[p])
    ensures |s| - |TrimStart(s)| <= p
  {
  }

  /** `trimEnd` keeps everything up to the last visible character. */
  lemma TrimEndKeepsThrough(s: string, p: nat)
    requires p < |s| && !IsWhitespace(s[p])
    ensures p < |TrimEnd(s)|
  {
  }

  /** `trim` cuts a text down to one of its slices. */
  lemma TrimIsSlice(s: string) returns (lo: nat, hi: nat)
    ensures lo <= hi <= |s| && Trim(s) == s[lo..hi]
    ensures forall p :: 0 <= p < |s| && !IsWhitespace(s[p]) ==> lo <= p < hi
  {
    var st := TrimStart(s);
    var r := TrimEnd(st);
    lo, hi := |s| - |st|, |s| - |st| + |r|;
    DropTake(s, lo, |r|);
    TrimKeepsVisible(s);
  }

  lemma DropTake(s: string, lo: nat, n: nat)
    requires lo + n <= |s|
    ensures s[lo..][..n] == s[lo..lo + n]
  {
  }

  lemma DropIndex(s: string, lo: nat, p: nat)
    requires lo <= p < |s|
    ensures s[lo..][p - lo] == s[p]
  {
  }

  /** Every visible character lies between the whitespace that `trim` cuts off on either side. */
  lemma TrimKeepsVisible(s: string)
    ensures forall p :: 0 <= p < |s| && !IsWhitespace(s[p]) ==>
      |s| - |TrimStart(s)| <= p < |s| - |TrimStart(s)| + |TrimEnd(TrimStart(s))|
  {
    var st := TrimStart(s);
    var lo := |s| - |st|;
    forall p | 0 <= p < |s| && !IsWhitespace(s[p])
      ensures lo <= p < lo + |TrimEnd(st)|
    {
      TrimStartStopsBefore(s, p);
      DropIndex(s, lo, p);
      TrimEndKeepsThrough(st, p - lo);
    }
  }

  /** A slice keeps whatever lies inside its bounds. */
  lemma SliceKeeps(s: string, lo: nat, hi: nat, a: nat, b: nat)
    requires lo <= a <= b <= hi <= |s|
    ensures OccursAt(s[lo..hi], s[a..b], a - lo)
  {
    var w := s[lo..hi];
    assert |w[a - lo..b - lo]| == |s[a..b]|;
    forall k | 0 <= k < b - a
      ensures w[a - lo..b - lo][k] == s[a..b][k]
    {
      assert w[a - lo + k] == s[a + k];
    }
  }

  /** A text keeps `t` through `trim` when a visible character stands before `t` and one after it. */
  lemma TrimKeepsText(x: string, t: string, y: string, kx: nat, ky: nat)
    requires kx < |x| && !IsWhitespace(x[kx])
    requires ky < |y| && !IsWhitespace(y[ky])
    ensures Includes(Trim(x + t + y), t)
  {
    var s := x + t + y;
    assert s[kx] == x[kx];
    assert s[|x| + |t| + ky] == y[ky];
    var lo, hi := TrimIsSlice(s);
    assert s[|x|..|x| + |t|] == t;
    SliceKeeps(s, lo, hi, |x|, |x| + |t|);
  }

  /**
   * A run of pieces of a template literal survives `trim` when the first piece starts
   * with a visible character and a visible character stands in some later piece.
   */
  lemma TemplateKeeps(lead: string, pieces: seq<string>, trail: string, i: nat, j: nat, hi: nat, khi: nat)
    requires 0 < i <= j <= hi < |pieces|
    requires pieces[0] != [] && !IsWhitespace(pieces[0][0])
    requires khi < |pieces[hi]| && !IsWhitespace(pieces[hi][khi])
    ensures Includes(Trim(lead + Concat(pieces) + trail), Concat(pieces[i..j]))
  {
    ConcatRun(pieces, i, j);
    var x := lead + Concat(pieces[..i]);
    var t := Concat(pieces[i..j]);
    var rest := pieces[j..];
    assert Concat(pieces[..i]) == pieces[0] + Concat(pieces[1..i]) by {
      assert pieces[..i][1..] == pieces[1..i];
    }
    assert x[|lead|] == pieces[0][0];
    ConcatSplit(rest, hi - j);
    assert rest[hi - j] == pieces[hi];
    var y := Concat(rest) + trail;
    var ky := |Concat(rest[..hi - j])| + khi;
    assert y[ky] == pieces[hi][khi];
    assert lead + Concat(pieces) + trail == x + t + y;
    TrimKeepsText(x, t, y, |lead|, ky);
  }

  /** Text found in a string is found in any extension of it to the right. */
  lemma IncludesLeft(s: string, u: string, t: string)
    requires Includes(s, t)
    ensures Includes(s + u, t)
  {
    var i :| OccursAt(s, t, i);
    assert (s + u)[i..i + |t|] == s[i..i + |t|];
    assert OccursAt(s + u, t, i);
  }

  /** Two consecutive pieces that lie before a visible character survive the trim together. */
  lemma TemplateKeepsPair(lead: string, pieces: seq<string>, trail: string, i: nat, hi: nat, khi: nat, a: string, b: string)
    requires 0 < i && i + 2 <= hi < |pieces|
    requires pieces[0] != [] && !IsWhitespace(pieces[0][0])
    requires khi < |pieces[hi]| && !IsWhitespace(pieces[hi][khi])
    requires pieces[i] == a && pieces[i + 1] == b
    ensures Includes(Trim(lead + Concat(pieces) + trail), a + b)
  {
    TemplateKeeps(lead, pieces, trail, i, i + 2, hi, khi);
    ConcatPair(pieces, i);
  }

  /** Three consecutive pieces that lie before a visible character survive the trim together. */
  lemma TemplateKeepsTriple(lead: string, pieces: seq<string>, trail: string, i: nat, hi: nat, khi: nat,
                            a: string, b: string, c: string)
    requires 0 < i && i + 3 <= hi < |pieces|
    requires pieces[0] != [] && !IsWhitespace(pieces[0][0])
    requires khi < |pieces[hi]| && !IsWhitespace(pieces[hi][khi])
    requires pieces[i] == a && pieces[i + 1] == b && pieces[i + 2] == c
    ensures Includes(Trim(lead + Concat(pieces) + trail), a + b + c)
  {
    var run := pieces[i..i + 3];
    assert run == [a, b, c];
    assert run[1..] == [b, c];
    assert [b, c][1..] == [c];
    assert [c][1..] == [];
    assert Concat([c]) == c;
    assert Concat([b, c]) == b + c;
    assert Concat(run) == a + b + c;
    TemplateKeeps(lead, pieces, trail, i, i + 3, hi, khi);
  }

  /** Every element of a joined list of strings appears verbatim in the result. */
  lemma {:induction false} JoinStringsIncludes(items: seq<string>, sep: string, i: nat)
    requires i < |items|
    ensures Includes(JoinStrings(items, sep), items[i])
  {
    if |items| == 1 {
      assert JoinStrings(items, sep) == items[0] + "";
      IncludesPrefix(items[0], "");
    } else if i == 0 {
      IncludesPrefix(items[0], sep + JoinStrings(items[1..], sep));
      assert JoinStrings(items, sep) == items[0] + (sep + JoinStrings(items[1..], sep));
    } else {
      JoinStringsIncludes(items[1..], sep, i - 1);
      IncludesWithin(items[0] + sep, JoinStrings(items[1..], sep), "", items[i]);
      assert JoinStrings(items, sep) == items[0] + sep + JoinStrings(items[1..], sep) + "";
    }
  }

  // ---------------------------------------------------------------- arrays

  /** The index `Array.prototype.slice` computes from a possibly negative argument. */
  function RelativeIndex(k: int, len: nat): (r: nat)
    ensures r <= len
  {
    if k < 0 then (if len + k < 0 then 0 else len + k) else if k > len then len else k
  }

  /** `s.slice(start, end)` */
  function Slice<T>(s: seq<T>, start: int, end: int): seq<T> {
    var from := RelativeIndex(start, |s|);
    var to := RelativeIndex(end, |s|);
    if from < to then s[from..to] else []
  }

  /** `s.slice(start)` */
  function SliceFrom<T>(s: seq<T>, start: int): seq<T> {
    Slice(s, start, |s|)
  }

  /** `objects.findIndex(o => o.id === id)`: the first index whose `id` is `id`, or -1. */
  function FindIndexById(objects: seq<Object>, id: Value): (r: int)
    ensures -1 <= r < |objects|
    ensures r >= 0 ==> StrictEquals(Get(objects[r], "id"), id)
    ensures r >= 0 ==> forall j :: 0 <= j < r ==> !StrictEquals(Get(objects[j], "id"), id)
    ensures r == -1 <==> forall j :: 0 <= j < |objects| ==> !StrictEquals(Get(objects[j], "id"), id)
  {
    if |objects| == 0 then -1
    else if StrictEquals(Get(objects[0], "id"), id) then 0
    else
      var r := FindIndexById(objects[1..], id);
      if r == -1 then -1 else r + 1
  }

  /** `objects.find(o => o.id === id)` */
  function FindById(objects: seq<Object>, id: Value): (r: Option<Object>)
    ensures r.Some? <==> exists j :: 0 <= j < |objects| && StrictEquals(Get(objects[j], "id"), id)
    ensures r.Some? ==> r.value == objects[FindIndexById(objects, id)]
  {
    var i := FindIndexById(objects, id);
    if i >= 0 then Some(objects[i]) else None
  }
}
