/**
 * JavaScript values as the board sees them at run time, and the few
 * JavaScript operations on them that the board's logic relies on:
 * truthiness, property lookup, `||` defaults, `Number()`, decimal
 * rendering of integers, `trim`, `toLowerCase`, `includes` and the
 * whitespace regular expression `/\s+/g`.
 */
module Values {
  import opened Wrappers

  /** A JavaScript number. Finite values are integers in this model. */
  datatype Num = Finite(value: int) | NaN

  /**
   * A JSON-like value. `JObj` lists the object's own enumerable properties
   * in JavaScript's property order (the order a `for ... in` loop visits
   * them), each key once; a key that is not listed is `undefined`.
   */
  datatype Json =
    | JNull
    | JBool(b: bool)
    | JNum(n: Num)
    | JStr(s: string)
    | JArr(items: seq<Json>)
    | JObj(fields: seq<(string, Json)>)

  /** JavaScript truthiness: null, false, 0, NaN and "" are falsy. */
  predicate Truthy(v: Json) {
    match v
    case JNull => false
    case JBool(b) => b
    case JNum(n) => n.Finite? && n.value != 0
    case JStr(s) => s != ""
    case JArr(_) => true
    case JObj(_) => true
  }

  /** Truthiness of a possibly-undefined value. */
  predicate Present(v: Option<Json>) {
    v.Some? && Truthy(v.value)
  }

  /** `typeof v === 'string'`. */
  predicate IsString(v: Json) {
    v.JStr?
  }

  /** `v && typeof v === 'string'`, i.e. a non-empty string. */
  predicate IsNonEmptyString(v: Json) {
    v.JStr? && v.s != ""
  }

  /** The value stored under `key` in an object's property list. */
  function Lookup(fields: seq<(string, Json)>, key: string): Option<Json> {
    if fields == [] then None
    else if fields[0].0 == key then Some(fields[0].1)
    else Lookup(fields[1..], key)
  }

  /** A lookup finds a value exactly when the key is listed, and the value is listed under the key. */
  lemma {:induction false} LookupSpec(fields: seq<(string, Json)>, key: string)
    ensures Lookup(fields, key).Some? <==> exists i :: 0 <= i < |fields| && fields[i].0 == key
    ensures Lookup(fields, key).Some? ==> exists i :: 0 <= i < |fields| && fields[i] == (key, Lookup(fields, key).value)
  {
    if fields != [] && fields[0].0 != key {
      LookupSpec(fields[1..], key);
      assert forall i :: 1 <= i < |fields| ==> fields[i] == fields[1..][i - 1];
    }
  }

  /** An object's property list with `(key, v)` put first. */
  function Cons(key: string, v: Json, rest: seq<(string, Json)>): seq<(string, Json)> {
    [(key, v)] + rest
  }

  /** A lookup in a list with `(key, v)` first finds `v` for `key` and searches the rest otherwise. */
  lemma LookupCons(key: string, v: Json, rest: seq<(string, Json)>, k: string)
    ensures Lookup(Cons(key, v, rest), k) == if k == key then Some(v) else Lookup(rest, k)
  {
    assert Cons(key, v, rest)[1..] == rest;
  }

  /** A lookup in a two-property list. */
  lemma LookupPair(k1: string, v1: Json, k2: string, v2: Json, k: string)
    ensures Lookup([(k1, v1), (k2, v2)], k) == if k == k1 then Some(v1) else if k == k2 then Some(v2) else None
  {
    var l := [(k1, v1), (k2, v2)];
    if k != k1 {
      assert l[0].0 != k && l[1..] == [(k2, v2)];
      assert Lookup(l, k) == Lookup([(k2, v2)], k);
      if k != k2 {
        assert [(k2, v2)][0].0 != k && [(k2, v2)][1..] == [];
        assert Lookup([(k2, v2)], k) == Lookup([], k);
      }
    }
  }

  /**
   * Property access `v.key` on a value that is not null: objects look the
   * key up, every other value has no such own property. (Access on null
   * throws; callers test for it first.)
   */
  function Get(v: Json, key: string): Option<Json> {
    if v.JObj? then Lookup(v.fields, key) else None
  }

  /** The `key in v` operator on an object. */
  predicate HasKey(v: Json, key: string) {
    v.JObj? && Lookup(v.fields, key).Some?
  }

  /** `v || d` for a possibly-undefined value. */
  function Or(v: Option<Json>, d: Json): (r: Json)
    ensures Present(v) ==> r == v.value
    ensures !Present(v) ==> r == d
  {
    if Present(v) then v.value else d
  }

  /**
   * `Number(v)`. Strings and arrays are converted through their text, which
   * the number parser `numberOf` stands for; the other cases are fixed by
   * the language.
   */
  function ToNumber(v: Json, numberOf: Json -> Num): (r: Num)
    ensures v.JNum? ==> r == v.n
    ensures v.JObj? ==> r == NaN
    ensures v == JNull ==> r == Finite(0)
  {
    match v
    case JNull => Finite(0)
    case JBool(b) => Finite(if b then 1 else 0)
    case JNum(n) => n
    case JObj(_) => NaN
    case JStr(_) => numberOf(v)
    case JArr(_) => numberOf(v)
  }

  // ---------------------------------------------------------------------
  // Decimal rendering of numbers, as template literals and toString do it.

  predicate IsDigit(c: char) {
    '0' <= c <= '9'
  }

  function DigitChar(d: nat): (c: char)
    requires d < 10
    ensures IsDigit(c) && c as int - '0' as int == d
  {
    ('0' as int + d) as char
  }

  /** The decimal digits of `n`, without leading zeros. */
  function NatToString(n: nat): (s: string)
    ensures |s| > 0
    ensures forall i :: 0 <= i < |s| ==> IsDigit(s[i])
    ensures n >= 10 ==> |s| >= 2
  {
    if n < 10 then [DigitChar(n)] else NatToString(n / 10) + [DigitChar(n % 10)]
  }

  /** Different numbers have different decimal renderings. */
  lemma {:induction false} NatToStringInjective(a: nat, b: nat)
    requires NatToString(a) == NatToString(b)
    ensures a == b
  {
    var sa, sb := NatToString(a), NatToString(b);
    if a < 10 && b < 10 {
      assert sa[0] == sb[0];
    } else if a >= 10 && b >= 10 {
      var pa, pb := NatToString(a / 10), NatToString(b / 10);
      assert sa == pa + [DigitChar(a % 10)] && sb == pb + [DigitChar(b % 10)];
      assert |pa| == |pb|;
      assert sa[|sa| - 1] == sb[|sb| - 1];
      assert pa == sa[..|sa| - 1] == sb[..|sb| - 1] == pb;
      NatToStringInjective(a / 10, b / 10);
    } else {
      assert false;
    }
  }

  /** `n.toString()` for a JavaScript number. */
  function NumToString(n: Num): (s: string)
    ensures s != ""
  {
    match n
    case NaN => "NaN"
    case Finite(v) => if v < 0 then "-" + NatToString(-v) else NatToString(v)
  }

  /**
   * A value as a template literal renders it. Arrays render as their
   * elements joined by commas, which this model does not spell out (None).
   */
  function JsText(v: Json): (r: Option<string>)
    ensures v.JStr? ==> r == Some(v.s)
    ensures r.None? <==> v.JArr?
  {
    match v
    case JNull => Some("null")
    case JBool(b) => Some(if b then "true" else "false")
    case JNum(n) => Some(NumToString(n))
    case JStr(s) => Some(s)
    case JArr(_) => None
    case JObj(_) => Some("[object Object]")
  }

  /** The identifier `investor-<ts>-<index>` given to records that have none. */
  function GeneratedId(ts: nat, index: nat): string {
    "investor-" + NatToString(ts) + "-" + NatToString(index)
  }

  /**
   * Two generated identifiers that are equal have the same index, whatever
   * their timestamps: the text after the last '-' is the index.
   */
  lemma GeneratedIdIndex(t1: nat, i: nat, t2: nat, j: nat)
    requires GeneratedId(t1, i) == GeneratedId(t2, j)
    ensures i == j
  {
    var s := GeneratedId(t1, i);
    var di, dj := NatToString(i), NatToString(j);
    var a, b := "investor-" + NatToString(t1) + "-", "investor-" + NatToString(t2) + "-";
    assert s == a + di && s == b + dj;
    assert s[|a| - 1] == '-' && s[|b| - 1] == '-';
    if |di| != |dj| {
      assert false;
    } else {
      assert di == s[|a|..] == s[|b|..] == dj;
      NatToStringInjective(i, j);
    }
  }

  // ---------------------------------------------------------------------
  // Text operations.

  /** The characters JavaScript's `trim` and the regular expression `\s` treat as white space. */
  predicate IsWhitespace(c: char) {
    c == ' ' || c == '\t' || c == '\n' || c == '\r' || c == '\U{000B}' || c == '\U{000C}'
    || c == '\U{00A0}' || c == '\U{1680}' || ('\U{2000}' <= c <= '\U{200A}')
    || c == '\U{2028}' || c == '\U{2029}' || c == '\U{202F}' || c == '\U{205F}'
    || c == '\U{3000}' || c == '\U{FEFF}'
  }

  /** `s.trim() === ""`. */
  predicate Blank(s: string) {
    forall i :: 0 <= i < |s| ==> IsWhitespace(s[i])
  }

  /** Lower case of one character: ASCII and Latin-1 capitals. */
  function LowerChar(c: char): (r: char)
    ensures 'A' <= c <= 'Z' ==> r as int == c as int + 32
    ensures !('A' <= c <= 'Z') && !('\U{00C0}' <= c <= '\U{00DE}') ==> r == c
  {
    if 'A' <= c <= 'Z' || ('\U{00C0}' <= c <= '\U{00DE}' && c != '\U{00D7}') then
      (c as int + 32) as char
    else c
  }

  /** `s.toLowerCase()`. */
  function Lower(s: string): (r: string)
    ensures |r| == |s|
    ensures forall i :: 0 <= i < |s| ==> r[i] == LowerChar(s[i])
  {
    seq(|s|, i requires 0 <= i < |s| => LowerChar(s[i]))
  }

  /** `s.includes(sub)`. */
  predicate Contains(s: string, sub: string) {
    exists i :: 0 <= i <= |s| - |sub| && OccursAt(s, sub, i)
  }

  /** `sub` occurs in `s` starting at index `i`. */
  predicate OccursAt(s: string, sub: string, i: int)
    requires 0 <= i <= |s| - |sub|
  {
    s[i..i + |sub|] == sub
  }

  /** `s` with its leading white space removed. */
  function SkipWhitespace(s: string): (r: string)
    ensures |r| <= |s| && r == s[|s| - |r|..]
    ensures r == [] || !IsWhitespace(r[0])
    ensures Blank(s[..|s| - |r|])
  {
    if s != [] && IsWhitespace(s[0]) then
      var r := SkipWhitespace(s[1..]);
      assert s[..|s| - |r|] == [s[0]] + s[1..][..|s| - 1 - |r|];
      r
    else s
  }

  /** `s.replace(/\s+/g, rep)`: every maximal run of white space becomes `rep`. */
  function ReplaceWhitespaceRuns(s: string, rep: string): (r: string)
    ensures (forall i :: 0 <= i < |rep| ==> !IsWhitespace(rep[i])) ==>
              forall i :: 0 <= i < |r| ==> !IsWhitespace(r[i])
    ensures (forall i :: 0 <= i < |s| ==> !IsWhitespace(s[i])) ==> r == s
    decreases |s|
  {
    if s == [] then []
    else if IsWhitespace(s[0]) then rep + ReplaceWhitespaceRuns(SkipWhitespace(s[1..]), rep)
    else
      var rest := ReplaceWhitespaceRuns(s[1..], rep);
      assert (forall i :: 0 <= i < |s| ==> !IsWhitespace(s[i])) ==>
             (forall i :: 0 <= i < |s[1..]| ==> !IsWhitespace(s[1..][i]));
      [s[0]] + rest
  }
}
