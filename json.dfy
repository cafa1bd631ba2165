/** JSON values (`serde_json::Value`) and their compact text form: `Serialize`
    stands for `serde_json::to_string` / `Value::to_string`, `Parse` for
    `serde_json::from_str::<Value>`.  Objects are unordered maps; their text
    lists the members in code-point order of the keys, as serde_json's default
    `BTreeMap`-backed `Map` does.  Numbers are integers. */
module Json {
  import opened Wrappers

  datatype Json =
    | Null
    | Bool(b: bool)
    | Num(n: int)
    | Str(s: string)
    | Arr(items: seq<Json>)
    | Obj(fields: map<string, Json>)

  /** `Value::get(key)`: the member of an object, `None` for any other value. */
  function Member(j: Json, key: string): Option<Json> {
    if j.Obj? && key in j.fields then Some(j.fields[key]) else None
  }

  // ---------------------------------------------------------------------------
  // Key order

  /** `a <= b` in the lexicographic order of code points (Rust's `Ord` on `String`). */
  predicate KeyLe(a: string, b: string)
    decreases |a|
  {
    a == [] || (b != [] && (a[0] < b[0] || (a[0] == b[0] && KeyLe(a[1..], b[1..]))))
  }

  lemma {:induction false} KeyLeTotal(a: string, b: string)
    ensures KeyLe(a, b) || KeyLe(b, a)
    decreases |a|
  {
    if a != [] && b != [] && a[0] == b[0] {
      KeyLeTotal(a[1..], b[1..]);
    }
  }

  lemma {:induction false} KeyLeAntisymmetric(a: string, b: string)
    requires KeyLe(a, b) && KeyLe(b, a)
    ensures a == b
    decreases |a|
  {
    if a != [] {
      KeyLeAntisymmetric(a[1..], b[1..]);
      assert a == [a[0]] + a[1..] && b == [b[0]] + b[1..];
    }
  }

  lemma {:induction false} KeyLeTransitive(a: string, b: string, c: string)
    requires KeyLe(a, b) && KeyLe(b, c)
    ensures KeyLe(a, c)
    decreases |a|
  {
    if a != [] && a[0] == b[0] && b[0] == c[0] {
      KeyLeTransitive(a[1..], b[1..], c[1..]);
    }
  }

  lemma KeyLeIsAntisymmetric()
    ensures forall a, b :: KeyLe(a, b) && KeyLe(b, a) ==> a == b
  {
    forall a, b | KeyLe(a, b) && KeyLe(b, a) ensures a == b {
      KeyLeAntisymmetric(a, b);
    }
  }

  lemma {:induction false} KeyLeReflexive(a: string)
    ensures KeyLe(a, a)
    decreases |a|
  {
    if a != [] {
      KeyLeReflexive(a[1..]);
    }
  }

  predicate IsLeast(k: string, ks: set<string>) {
    k in ks && forall x :: x in ks ==> KeyLe(k, x)
  }

  /** The least of `rest + {y}`, given the least of `rest`. */
  lemma LeastOfInsert(m: string, rest: set<string>, y: string) returns (least: string)
    requires IsLeast(m, rest)
    ensures IsLeast(least, rest + {y})
  {
    KeyLeTotal(m, y);
    if KeyLe(m, y) {
      least := m;
    } else {
      least := y;
      KeyLeReflexive(y);
      forall x | x in rest ensures KeyLe(y, x) {
        KeyLeTransitive(y, m, x);
      }
    }
  }

  /** Every finite non-empty set of keys has a least element. */
  lemma {:induction false} LeastKeyExists(ks: set<string>)
    requires ks != {}
    ensures exists k :: IsLeast(k, ks)
    decreases ks
  {
    var y :| y in ks;
    var rest := ks - {y};
    if rest == {} {
      assert ks == {y};
      KeyLeReflexive(y);
      assert IsLeast(y, ks);
    } else {
      LeastKeyExists(rest);
      var m :| IsLeast(m, rest);
      var least := LeastOfInsert(m, rest, y);
      assert rest + {y} == ks;
    }
  }

  /** The keys of a map in increasing order: every key exactly once. */
  function SortedKeys(ks: set<string>): (r: seq<string>)
    ensures forall k :: k in r <==> k in ks
    ensures |r| == |ks|
    ensures forall i, j :: 0 <= i < j < |r| ==> KeyLe(r[i], r[j])
    decreases ks
  {
    if ks == {} then []
    else
      LeastKeyExists(ks);
      KeyLeIsAntisymmetric();
      var k :| IsLeast(k, ks);
      [k] + SortedKeys(ks - {k})
  }

  // ---------------------------------------------------------------------------
  // Text form

  predicate IsDigit(c: char) {
    '0' <= c <= '9'
  }

  function DigitChar(d: nat): (c: char)
    requires d < 10
    ensures IsDigit(c)
  {
    ('0' as int + d) as char
  }

  /** Decimal digits of a natural number (Rust's `Display` for integers):
      never empty, all digits, and a leading zero only for zero itself. */
  function NatText(n: nat): (r: string)
    ensures r != [] && forall i :: 0 <= i < |r| ==> IsDigit(r[i])
    ensures r[0] == '0' <==> n == 0
    ensures |r| == 1 <==> n < 10
    decreases n
  {
    if n < 10 then [DigitChar(n)] else NatText(n / 10) + [DigitChar(n % 10)]
  }

  function IntText(n: int): string {
    if n < 0 then "-" + NatText(-n) else NatText(n)
  }

  /** A lower-case hexadecimal digit. */
  function HexDigit(d: nat): char
    requires d < 16
  {
    if d < 10 then ('0' as int + d) as char else ('a' as int + d - 10) as char
  }

  /** serde_json's escape of one character inside a string literal. */
  function EscapeChar(c: char): string {
    if c == '"' then "\\\""
    else if c == '\\' then "\\\\"
    else if c as int == 0x08 then "\\b"
    else if c as int == 0x0C then "\\f"
    else if c == '\n' then "\\n"
    else if c == '\r' then "\\r"
    else if c == '\t' then "\\t"
    else if c as int < 0x20 then "\\u00" + [HexDigit(c as int / 16), HexDigit(c as int % 16)]
    else [c]
  }

  function EscapeText(s: string): string
    decreases |s|
  {
    if s == [] then [] else EscapeChar(s[0]) + EscapeText(s[1..])
  }

  function Quote(s: string): string {
    "\"" + EscapeText(s) + "\""
  }

  /** `serde_json::to_string`: compact text, no whitespace. */
  function Serialize(j: Json): string
    decreases j
  {
    match j
    case Null => "null"
    case Bool(b) => if b then "true" else "false"
    case Num(n) => IntText(n)
    case Str(s) => Quote(s)
    case Arr(items) => "[" + SerializeItems(items) + "]"
    case Obj(m) => "{" + SerializeMembers(j, SortedKeys(m.Keys)) + "}"
  }

  function SerializeItems(items: seq<Json>): string
    decreases items
  {
    if items == [] then []
    else if |items| == 1 then Serialize(items[0])
    else Serialize(items[0]) + "," + SerializeItems(items[1..])
  }

  function SerializeMembers(j: Json, keys: seq<string>): string
    requires j.Obj? && forall k :: k in keys ==> k in j.fields
    decreases j, |keys|
  {
    if keys == [] then []
    else
      var member := Quote(keys[0]) + ":" + Serialize(j.fields[keys[0]]);
      if |keys| == 1 then member else member + "," + SerializeMembers(j, keys[1..])
  }

  // ---------------------------------------------------------------------------
  // Parsing

  /** The whitespace JSON allows between tokens. */
  predicate IsJsonWhitespace(c: char) {
    c == ' ' || c == '\t' || c == '\n' || c == '\r'
  }

  function SkipWhitespace(s: string): (r: string)
    ensures |r| <= |s|
    decreases |s|
  {
    if s != [] && IsJsonWhitespace(s[0]) then SkipWhitespace(s[1..]) else s
  }

  /** Length of the maximal run of decimal digits at the start of `s`. */
  function DigitRun(s: string): (k: nat)
    ensures k <= |s|
    ensures forall i :: 0 <= i < k ==> IsDigit(s[i])
    ensures k < |s| ==> !IsDigit(s[k])
    decreases |s|
  {
    if s != [] && IsDigit(s[0]) then 1 + DigitRun(s[1..]) else 0
  }

  function DigitValue(c: char): (d: nat)
    requires IsDigit(c)
    ensures d < 10
  {
    c as int - '0' as int
  }

  function DigitsValue(ds: string): nat
    requires forall i :: 0 <= i < |ds| ==> IsDigit(ds[i])
    decreases |ds|
  {
    if ds == [] then 0
    else DigitsValue(ds[..|ds| - 1]) * 10 + DigitValue(ds[|ds| - 1])
  }

  /** An integer: optional minus, then `0` or digits without a leading zero.
      A fraction or exponent is a floating-point number, which this model does
      not represent: it is refused. */
  function ParseNumber(s: string): (r: Option<(Json, string)>)
    ensures r.Some? ==> |r.value.1| < |s|
  {
    if s != [] && s[0] == '-' then
      match ParseMagnitude(s[1..])
      case None => None
      case Some((v, rest)) => Some((Num(-(v as int)), rest))
    else
      match ParseMagnitude(s)
      case None => None
      case Some((v, rest)) => Some((Num(v), rest))
  }

  /** The digits of a number after its optional minus sign. */
  function ParseMagnitude(t: string): (r: Option<(nat, string)>)
    ensures r.Some? ==> |r.value.1| < |t|
  {
    var k := DigitRun(t);
    if k == 0 then None
    else if t[0] == '0' && k > 1 then None
    else if k < |t| && (t[k] == '.' || t[k] == 'e' || t[k] == 'E') then None
    else Some((DigitsValue(t[..k]), t[k..]))
  }

  function HexValue(c: char): Option<nat> {
    if '0' <= c <= '9' then Some(c as int - '0' as int)
    else if 'a' <= c <= 'f' then Some(c as int - 'a' as int + 10)
    else if 'A' <= c <= 'F' then Some(c as int - 'A' as int + 10)
    else None
  }

  /** Four hexadecimal digits at the start of `s`. */
  function Hex4(s: string): (r: Option<nat>)
    ensures r.Some? ==> |s| >= 4 && r.value < 0x10000
  {
    if |s| < 4 then None
    else match (HexValue(s[0]), HexValue(s[1]), HexValue(s[2]), HexValue(s[3]))
      case (Some(a), Some(b), Some(c), Some(d)) =>
        if a < 16 && b < 16 && c < 16 && d < 16 then Some(((a * 16 + b) * 16 + c) * 16 + d) else None
      case _ => None
  }

  /** The escape after `\u`: a code point, or a surrogate pair written as two
      escapes; a lone surrogate is refused. */
  function ParseUnicodeEscape(s: string): (r: Option<(char, string)>)
    ensures r.Some? ==> |r.value.1| < |s|
  {
    match Hex4(s)
    case None => None
    case Some(hi) =>
      if 0xD800 <= hi < 0xDC00 then
        if |s| >= 6 && s[4] == '\\' && s[5] == 'u' then
          match Hex4(s[6..])
          case None => None
          case Some(lo) =>
            if 0xDC00 <= lo < 0xE000 then
              Some(((0x10000 + (hi - 0xD800) * 0x400 + (lo - 0xDC00)) as char, s[10..]))
            else None
        else None
      else if 0xDC00 <= hi < 0xE000 then None
      else Some((hi as char, s[4..]))
  }

  /** The escape after a backslash. */
  function ParseEscape(s: string): (r: Option<(char, string)>)
    ensures r.Some? ==> |r.value.1| < |s|
  {
    if s == [] then None
    else if s[0] == '"' then Some(('"', s[1..]))
    else if s[0] == '\\' then Some(('\\', s[1..]))
    else if s[0] == '/' then Some(('/', s[1..]))
    else if s[0] == 'b' then Some((0x08 as char, s[1..]))
    else if s[0] == 'f' then Some((0x0C as char, s[1..]))
    else if s[0] == 'n' then Some(('\n', s[1..]))
    else if s[0] == 'r' then Some(('\r', s[1..]))
    else if s[0] == 't' then Some(('\t', s[1..]))
    else if s[0] == 'u' then ParseUnicodeEscape(s[1..])
    else None
  }

  /** The body of a string literal after its opening quote, up to and including
      the closing quote.  A raw control character is refused. */
  function ParseStringBody(s: string): (r: Option<(string, string)>)
    ensures r.Some? ==> |r.value.1| < |s|
    decreases |s|
  {
    if s == [] then None
    else if s[0] == '"' then Some(([], s[1..]))
    else if s[0] == '\\' then
      match ParseEscape(s[1..])
      case None => None
      case Some((c, rest)) =>
        match ParseStringBody(rest)
        case None => None
        case Some((t, rest')) => Some(([c] + t, rest'))
    else if (s[0] as int) < 0x20 then None
    else
      match ParseStringBody(s[1..])
      case None => None
      case Some((t, rest)) => Some(([s[0]] + t, rest))
  }

  function ParseLiteral(s: string, word: string, j: Json): (r: Option<(Json, string)>)
    requires word != []
    ensures r.Some? ==> |r.value.1| < |s|
  {
    if |s| >= |word| && s[..|word|] == word then Some((j, s[|word|..])) else None
  }

  /** One value at the very start of `s` (no leading whitespace), and the text
      after it. */
  function ParseValue(s: string): (r: Option<(Json, string)>)
    ensures r.Some? ==> |r.value.1| < |s|
    decreases |s|, 2
  {
    if s == [] then None
    else if s[0] == 'n' then ParseLiteral(s, "null", Null)
    else if s[0] == 't' then ParseLiteral(s, "true", Bool(true))
    else if s[0] == 'f' then ParseLiteral(s, "false", Bool(false))
    else if s[0] == '"' then
      match ParseStringBody(s[1..])
      case None => None
      case Some((t, rest)) => Some((Str(t), rest))
    else if s[0] == '[' then ParseArray(s[1..])
    else if s[0] == '{' then ParseObject(s[1..])
    else if s[0] == '-' || IsDigit(s[0]) then ParseNumber(s)
    else None
  }

  /** An array after its `[`. */
  function ParseArray(s: string): (r: Option<(Json, string)>)
    ensures r.Some? ==> |r.value.1| < |s| && r.value.0.Arr?
    decreases |s|, 4
  {
    var t := SkipWhitespace(s);
    if t != [] && t[0] == ']' then Some((Arr([]), t[1..]))
    else ParseItems(t, [])
  }

  /** The elements of an array from the start of one element, after those in `acc`. */
  function ParseItems(s: string, acc: seq<Json>): (r: Option<(Json, string)>)
    ensures r.Some? ==> |r.value.1| < |s| && r.value.0.Arr?
    decreases |s|, 3
  {
    match ParseValue(s)
    case None => None
    case Some((v, rest)) => ParseAfterItem(rest, acc + [v])
  }

  /** What may follow an element: a comma and a further element, or `]`. */
  function ParseAfterItem(s: string, acc: seq<Json>): (r: Option<(Json, string)>)
    ensures r.Some? ==> |r.value.1| < |s| && r.value.0.Arr?
    decreases |s|, 0
  {
    var t := SkipWhitespace(s);
    if t == [] then None
    else if t[0] == ',' then ParseItems(SkipWhitespace(t[1..]), acc)
    else if t[0] == ']' then Some((Arr(acc), t[1..]))
    else None
  }

  /** An object after its `{`. */
  function ParseObject(s: string): (r: Option<(Json, string)>)
    ensures r.Some? ==> |r.value.1| < |s| && r.value.0.Obj?
    decreases |s|, 4
  {
    var t := SkipWhitespace(s);
    if t != [] && t[0] == '}' then Some((Obj(map[]), t[1..]))
    else ParseMembers(t, map[])
  }

  /** The members of an object from the start of one member; a repeated key
      keeps its last value. */
  function ParseMembers(s: string, acc: map<string, Json>): (r: Option<(Json, string)>)
    ensures r.Some? ==> |r.value.1| < |s| && r.value.0.Obj?
    decreases |s|, 3
  {
    if s == [] || s[0] != '"' then None
    else
      match ParseStringBody(s[1..])
      case None => None
      case Some((key, rest)) =>
        var t := SkipWhitespace(rest);
        if t == [] || t[0] != ':' then None
        else
          match ParseValue(SkipWhitespace(t[1..]))
          case None => None
          case Some((v, rest')) => ParseAfterMember(rest', acc[key := v])
  }

  /** What may follow a member: a comma and a further member, or `}`. */
  function ParseAfterMember(s: string, acc: map<string, Json>): (r: Option<(Json, string)>)
    ensures r.Some? ==> |r.value.1| < |s| && r.value.0.Obj?
    decreases |s|, 0
  {
    var t := SkipWhitespace(s);
    if t == [] then None
    else if t[0] == ',' then ParseMembers(SkipWhitespace(t[1..]), acc)
    else if t[0] == '}' then Some((Obj(acc), t[1..]))
    else None
  }

  /** `serde_json::from_str::<Value>`: one value, surrounded by nothing but whitespace. */
  function Parse(s: string): Option<Json> {
    match ParseValue(SkipWhitespace(s))
    case Some((j, rest)) => if SkipWhitespace(rest) == [] then Some(j) else None
    case None => None
  }

  /** `from_str` inside a `?`: a parse failure becomes an error. */
  function ParseResult(s: string): Result<Json> {
    match Parse(s)
    case Some(j) => Ok(j)
    case None => Err("invalid JSON text")
  }
}
