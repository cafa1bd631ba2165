/** The text form of a JSON value reads back as the same value:
    `from_str(&to_string(v)) == v` for every value the model represents. */
module JsonRoundTrip {
  import opened Wrappers
  import opened Json

  /** What may follow a value in a text without changing how the value is
      read: nothing, or a character that cannot continue a number. */
  predicate EndsValue(rest: string) {
    rest == [] || !(IsDigit(rest[0]) || rest[0] == '.' || rest[0] == 'e' || rest[0] == 'E')
  }

  // ---------------------------------------------------------------------------
  // Numbers

  lemma {:induction false} NatTextValue(n: nat)
    ensures DigitsValue(NatText(n)) == n
    decreases n
  {
    if n >= 10 {
      var r := NatText(n);
      NatTextValue(n / 10);
      assert r[..|r| - 1] == NatText(n / 10);
    }
  }

  lemma {:induction false} DigitRunOf(ds: string, rest: string)
    requires forall i :: 0 <= i < |ds| ==> IsDigit(ds[i])
    requires rest == [] || !IsDigit(rest[0])
    ensures DigitRun(ds + rest) == |ds|
    decreases |ds|
  {
    if ds != [] {
      assert (ds + rest)[1..] == ds[1..] + rest;
      DigitRunOf(ds[1..], rest);
    }
  }

  /** Digits without a leading zero, followed by a character that cannot
      continue a number, read as their value. */
  lemma DigitsMagnitude(ds: string, rest: string)
    requires ds != [] && forall i :: 0 <= i < |ds| ==> IsDigit(ds[i])
    requires ds[0] == '0' ==> |ds| == 1
    requires EndsValue(rest)
    ensures ParseMagnitude(ds + rest) == Some((DigitsValue(ds), rest))
  {
    var t := ds + rest;
    DigitRunOf(ds, rest);
    assert t[..|ds|] == ds && t[|ds|..] == rest;
  }

  lemma NumberRoundTrip(n: int, rest: string)
    requires EndsValue(rest)
    ensures ParseValue(IntText(n) + rest) == Some((Num(n), rest))
  {
    var s := IntText(n) + rest;
    if n < 0 {
      NegativeNumber(-n, rest);
    } else {
      NonNegativeNumber(n, rest);
    }
    ParseValueOfNumber(s);
  }

  lemma NegativeNumber(a: nat, rest: string)
    requires a > 0 && EndsValue(rest)
    ensures var s := "-" + NatText(a) + rest;
            s[0] == '-' && ParseNumber(s) == Some((Num(-(a as int)), rest))
  {
    NatTextValue(a);
    DigitsMagnitude(NatText(a), rest);
    var s := "-" + NatText(a) + rest;
    assert s[1..] == NatText(a) + rest;
  }

  lemma NonNegativeNumber(a: nat, rest: string)
    requires EndsValue(rest)
    ensures var s := NatText(a) + rest;
            IsDigit(s[0]) && ParseNumber(s) == Some((Num(a), rest))
  {
    NatTextValue(a);
    DigitsMagnitude(NatText(a), rest);
    var s := NatText(a) + rest;
    assert s[0] == NatText(a)[0];
  }

  // ---------------------------------------------------------------------------
  // Strings

  lemma HexDigitValue(d: nat)
    requires d < 16
    ensures HexValue(HexDigit(d)) == Some(d)
  {
  }

  /** A control character written as `\u00XY` reads back as itself. */
  lemma ControlEscapeRoundTrip(c: char, rest: string)
    requires (c as int) < 0x20
    ensures ParseUnicodeEscape("00" + [HexDigit(c as int / 16), HexDigit(c as int % 16)] + rest) == Some((c, rest))
  {
    var s := "00" + [HexDigit(c as int / 16), HexDigit(c as int % 16)] + rest;
    HexDigitValue(c as int / 16);
    HexDigitValue(c as int % 16);
    assert s[0] == '0' && s[1] == '0';
    assert Hex4(s) == Some(c as int);
    assert s[4..] == rest;
  }

  /** One escaped character followed by the escape of a further text reads as
      that character followed by the further text. */
  lemma EscapeCharRoundTrip(c: char, x: string, t: string, rest: string)
    requires ParseStringBody(x) == Some((t, rest))
    ensures ParseStringBody(EscapeChar(c) + x) == Some(([c] + t, rest))
  {
    var s := EscapeChar(c) + x;
    if c == '"' || c == '\\' || c as int == 0x08 || c as int == 0x0C || c == '\n' || c == '\r' || c == '\t' {
      assert s[0] == '\\' && s[1..] == [EscapeChar(c)[1]] + x;
    } else if (c as int) < 0x20 {
      var hex := [HexDigit(c as int / 16), HexDigit(c as int % 16)];
      assert s[0] == '\\' && s[1..] == ['u'] + ("00" + hex + x);
      ControlEscapeRoundTrip(c, x);
    } else {
      assert s[1..] == x;
    }
  }

  lemma {:induction false} EscapeTextRoundTrip(s: string, rest: string)
    ensures ParseStringBody(EscapeText(s) + "\"" + rest) == Some((s, rest))
    decreases |s|
  {
    if s != [] {
      var x := EscapeText(s[1..]) + "\"" + rest;
      EscapeTextRoundTrip(s[1..], rest);
      EscapeCharRoundTrip(s[0], x, s[1..], rest);
      EscapeTextCons(s, rest);
    }
  }

  lemma EscapeTextCons(s: string, rest: string)
    requires s != []
    ensures EscapeText(s) + "\"" + rest == EscapeChar(s[0]) + (EscapeText(s[1..]) + "\"" + rest)
    ensures [s[0]] + s[1..] == s
  {
  }

  /** A quoted text followed by anything reads back as the text. */
  lemma QuoteRoundTrip(s: string, rest: string)
    ensures (Quote(s) + rest)[0] == '"'
    ensures ParseStringBody((Quote(s) + rest)[1..]) == Some((s, rest))
  {
    assert (Quote(s) + rest)[1..] == EscapeText(s) + "\"" + rest;
    EscapeTextRoundTrip(s, rest);
  }

  // ---------------------------------------------------------------------------
  // Single steps of the parser

  lemma SkipNothing(s: string)
    requires s != [] && !IsJsonWhitespace(s[0])
    ensures SkipWhitespace(s) == s
  {
  }

  /** Serialized text never starts with whitespace. */
  lemma SerializeStart(j: Json, rest: string)
    ensures Serialize(j) != []
    ensures (Serialize(j) + rest)[0] == Serialize(j)[0]
    ensures !IsJsonWhitespace(Serialize(j)[0])
    ensures SkipWhitespace(Serialize(j) + rest) == Serialize(j) + rest
  {
    if j.Num? {
      var ds := NatText(if j.n < 0 then -j.n else j.n);
      assert IsDigit(ds[0]);
    }
    SkipNothing(Serialize(j) + rest);
  }

  lemma ParseValueOfNumber(s: string)
    requires s != [] && (s[0] == '-' || IsDigit(s[0]))
    ensures ParseValue(s) == ParseNumber(s)
  {
  }

  lemma ParseValueOfArray(s: string)
    requires s != [] && s[0] == '['
    ensures ParseValue(s) == ParseArray(s[1..])
  {
  }

  lemma ParseValueOfObject(s: string)
    requires s != [] && s[0] == '{'
    ensures ParseValue(s) == ParseObject(s[1..])
  {
  }

  lemma ParseArrayStart(s: string)
    requires s != [] && !IsJsonWhitespace(s[0])
    ensures ParseArray(s) == if s[0] == ']' then Some((Arr([]), s[1..])) else ParseItems(s, [])
  {
    SkipNothing(s);
  }

  lemma ParseItemsStep(s: string, acc: seq<Json>, v: Json, rest: string)
    requires ParseValue(s) == Some((v, rest))
    ensures ParseItems(s, acc) == ParseAfterItem(rest, acc + [v])
  {
  }

  lemma ParseAfterItemClose(rest: string, acc: seq<Json>)
    ensures ParseAfterItem("]" + rest, acc) == Some((Arr(acc), rest))
  {
    SkipNothing("]" + rest);
    assert ("]" + rest)[1..] == rest;
  }

  lemma ParseAfterItemNext(more: string, acc: seq<Json>)
    requires more != [] && !IsJsonWhitespace(more[0])
    ensures ParseAfterItem("," + more, acc) == ParseItems(more, acc)
  {
    SkipNothing("," + more);
    assert ("," + more)[1..] == more;
    SkipNothing(more);
  }

  lemma ParseObjectStart(s: string)
    requires s != [] && !IsJsonWhitespace(s[0])
    ensures ParseObject(s) == if s[0] == '}' then Some((Obj(map[]), s[1..])) else ParseMembers(s, map[])
  {
    SkipNothing(s);
  }

  /** A member whose key reads as `key` and whose value reads as `v`. */
  lemma ParseMember(s: string, acc: map<string, Json>, key: string, t: string, v: Json, follow: string)
    requires s != [] && s[0] == '"'
    requires ParseStringBody(s[1..]) == Some((key, ":" + t))
    requires t != [] && !IsJsonWhitespace(t[0])
    requires ParseValue(t) == Some((v, follow))
    ensures ParseMembers(s, acc) == ParseAfterMember(follow, acc[key := v])
  {
    SkipNothing(":" + t);
    assert (":" + t)[1..] == t;
    SkipNothing(t);
  }

  lemma ParseAfterMemberClose(rest: string, acc: map<string, Json>)
    ensures ParseAfterMember("}" + rest, acc) == Some((Obj(acc), rest))
  {
    SkipNothing("}" + rest);
    assert ("}" + rest)[1..] == rest;
  }

  lemma ParseAfterMemberNext(more: string, acc: map<string, Json>)
    requires more != [] && !IsJsonWhitespace(more[0])
    ensures ParseAfterMember("," + more, acc) == ParseMembers(more, acc)
  {
    SkipNothing("," + more);
    assert ("," + more)[1..] == more;
    SkipNothing(more);
  }

  // ---------------------------------------------------------------------------
  // Shapes of the serialized text

  lemma ArrayText(j: Json, rest: string)
    requires j.Arr?
    ensures (Serialize(j) + rest)[0] == '['
    ensures (Serialize(j) + rest)[1..] == SerializeItems(j.items) + "]" + rest
  {
    assert Serialize(j) + rest == "[" + (SerializeItems(j.items) + "]" + rest);
  }

  lemma ItemsStart(items: seq<Json>, rest: string)
    requires items != []
    ensures SerializeItems(items) + rest != []
    ensures !IsJsonWhitespace((SerializeItems(items) + rest)[0])
  {
    var head, whole := Serialize(items[0]), SerializeItems(items);
    SerializeStart(items[0], []);
    ItemsHead(items);
    ConcatStart(head, whole[|head|..]);
    ConcatStart(whole, rest);
  }

  /** The text of a non-empty list of items begins with the text of the first. */
  lemma ItemsHead(items: seq<Json>)
    requires items != []
    ensures |Serialize(items[0])| <= |SerializeItems(items)|
    ensures SerializeItems(items) == Serialize(items[0]) + SerializeItems(items)[|Serialize(items[0])|..]
  {
  }

  lemma ConcatStart(a: string, b: string)
    requires a != []
    ensures a + b != [] && (a + b)[0] == a[0]
  {
  }

  lemma Associative(a: string, b: string, c: string)
    ensures a + b + c == a + (b + c)
  {
  }

  lemma ItemsText(items: seq<Json>, rest: string)
    requires items != []
    ensures |items| == 1 ==>
      SerializeItems(items) + "]" + rest == Serialize(items[0]) + ("]" + rest)
    ensures |items| > 1 ==>
      SerializeItems(items) + "]" + rest == Serialize(items[0]) + ("," + (SerializeItems(items[1..]) + "]" + rest))
  {
    var head := Serialize(items[0]);
    if |items| == 1 {
      assert SerializeItems(items) == head;
      Associative(head, "]", rest);
    } else {
      var more := SerializeItems(items[1..]);
      assert SerializeItems(items) == head + "," + more;
      Associative(head + "," + more, "]", rest);
      Associative(head + ",", more, "]" + rest);
      Associative(head, ",", more + ("]" + rest));
      Associative(more, "]", rest);
    }
  }

  lemma ObjectText(j: Json, rest: string)
    requires j.Obj?
    ensures (Serialize(j) + rest)[0] == '{'
    ensures (Serialize(j) + rest)[1..] == SerializeMembers(j, SortedKeys(j.fields.Keys)) + "}" + rest
  {
    assert Serialize(j) + rest == "{" + (SerializeMembers(j, SortedKeys(j.fields.Keys)) + "}" + rest);
  }

  /** What follows the first member's value in the text of `keys`. */
  function MembersTail(j: Json, keys: seq<string>, rest: string): string
    requires j.Obj? && keys != [] && forall k :: k in keys ==> k in j.fields
  {
    if |keys| == 1 then "}" + rest else "," + (SerializeMembers(j, keys[1..]) + "}" + rest)
  }

  lemma MembersText(j: Json, keys: seq<string>, rest: string)
    requires j.Obj? && keys != [] && forall k :: k in keys ==> k in j.fields
    ensures SerializeMembers(j, keys) + "}" + rest
      == Quote(keys[0]) + (":" + (Serialize(j.fields[keys[0]]) + MembersTail(j, keys, rest)))
    ensures (SerializeMembers(j, keys) + "}" + rest)[0] == '"'
  {
    var q, v := Quote(keys[0]), Serialize(j.fields[keys[0]]);
    if |keys| == 1 {
      assert SerializeMembers(j, keys) == q + ":" + v;
      Associative(q + ":" + v, "}", rest);
      Associative(q + ":", v, "}" + rest);
      Associative(q, ":", v + ("}" + rest));
    } else {
      var more := SerializeMembers(j, keys[1..]);
      assert SerializeMembers(j, keys) == q + ":" + v + "," + more;
      Associative(q + ":" + v + "," + more, "}", rest);
      Associative(q + ":" + v + ",", more, "}" + rest);
      Associative(q + ":" + v, ",", more + ("}" + rest));
      Associative(more, "}", rest);
      Associative(q + ":", v, "," + (more + "}" + rest));
      Associative(q, ":", v + ("," + (more + "}" + rest)));
    }
    assert Quote(keys[0])[0] == '"';
  }

  // ---------------------------------------------------------------------------
  // Values

  /** The text of any value, followed by anything that cannot extend it, reads
      back as that value and leaves the rest. */
  lemma {:induction false} SerializeRoundTrip(j: Json, rest: string)
    requires EndsValue(rest)
    ensures ParseValue(Serialize(j) + rest) == Some((j, rest))
    decreases j
  {
    match j
    case Null =>
      assert (Serialize(j) + rest)[..4] == "null";
    case Bool(b) =>
      if b { assert (Serialize(j) + rest)[..4] == "true"; }
      else { assert (Serialize(j) + rest)[..5] == "false"; }
    case Num(n) =>
      NumberRoundTrip(n, rest);
    case Str(s) =>
      QuoteRoundTrip(s, rest);
    case Arr(items) =>
      ArrayRoundTrip(j, rest);
    case Obj(m) =>
      ObjectRoundTrip(j, rest);
  }

  lemma {:induction false} ArrayRoundTrip(j: Json, rest: string)
    requires j.Arr?
    ensures ParseValue(Serialize(j) + rest) == Some((j, rest))
    decreases j, 0
  {
    var body := SerializeItems(j.items) + "]" + rest;
    ArrayText(j, rest);
    ParseValueOfArray(Serialize(j) + rest);
    if j.items == [] {
      assert body == "]" + rest;
      ParseArrayStart(body);
      assert ("]" + rest)[1..] == rest;
    } else {
      ItemsStart(j.items, "]" + rest);
      assert SerializeItems(j.items) + ("]" + rest) == body;
      ParseArrayStart(body);
      ItemsRoundTrip(j.items, [], rest);
      assert [] + j.items == j.items;
    }
  }

  lemma {:induction false} ItemsRoundTrip(items: seq<Json>, acc: seq<Json>, rest: string)
    requires items != []
    ensures ParseItems(SerializeItems(items) + "]" + rest, acc) == Some((Arr(acc + items), rest))
    decreases items, 1
  {
    HeadThenTail(acc, items);
    if |items| == 1 {
      LastItemRoundTrip(items, acc, rest);
    } else {
      NextItemRoundTrip(items, acc, rest);
      ItemsRoundTrip(items[1..], acc + [items[0]], rest);
    }
  }

  lemma HeadThenTail(acc: seq<Json>, items: seq<Json>)
    requires items != []
    ensures acc + [items[0]] + items[1..] == acc + items
    ensures |items| == 1 ==> acc + [items[0]] == acc + items
  {
    assert [items[0]] + items[1..] == items;
  }

  lemma {:induction false} LastItemRoundTrip(items: seq<Json>, acc: seq<Json>, rest: string)
    requires |items| == 1
    ensures ParseItems(SerializeItems(items) + "]" + rest, acc) == Some((Arr(acc + [items[0]]), rest))
    decreases items, 0
  {
    var s := SerializeItems(items) + "]" + rest;
    ItemsText(items, rest);
    SerializeRoundTrip(items[0], "]" + rest);
    ParseItemsStep(s, acc, items[0], "]" + rest);
    ParseAfterItemClose(rest, acc + [items[0]]);
  }

  lemma {:induction false} NextItemRoundTrip(items: seq<Json>, acc: seq<Json>, rest: string)
    requires |items| > 1
    ensures ParseItems(SerializeItems(items) + "]" + rest, acc)
         == ParseItems(SerializeItems(items[1..]) + "]" + rest, acc + [items[0]])
    decreases items, 0
  {
    var s := SerializeItems(items) + "]" + rest;
    var more := SerializeItems(items[1..]) + "]" + rest;
    ItemsText(items, rest);
    SerializeRoundTrip(items[0], "," + more);
    ParseItemsStep(s, acc, items[0], "," + more);
    ItemsStart(items[1..], "]" + rest);
    Associative(SerializeItems(items[1..]), "]", rest);
    ParseAfterItemNext(more, acc + [items[0]]);
  }

  /** The map the parser builds from `acc` by reading the members of `j` named
      by `keys`, in order. */
  function Updated(acc: map<string, Json>, j: Json, keys: seq<string>): (r: map<string, Json>)
    requires j.Obj? && forall k :: k in keys ==> k in j.fields
    ensures forall k :: k in r <==> k in acc || k in keys
    ensures forall k :: k in keys ==> r[k] == j.fields[k]
    ensures forall k :: k in acc && k !in keys ==> r[k] == acc[k]
    decreases |keys|
  {
    if keys == [] then acc
    else Updated(acc[keys[0] := j.fields[keys[0]]], j, keys[1..])
  }

  lemma UpdatedAll(j: Json)
    requires j.Obj?
    ensures Updated(map[], j, SortedKeys(j.fields.Keys)) == j.fields
  {
  }

  lemma {:induction false} ObjectRoundTrip(j: Json, rest: string)
    requires j.Obj?
    ensures ParseValue(Serialize(j) + rest) == Some((j, rest))
    decreases j, |j.fields| + 1
  {
    var keys := SortedKeys(j.fields.Keys);
    var body := SerializeMembers(j, keys) + "}" + rest;
    ObjectText(j, rest);
    ParseValueOfObject(Serialize(j) + rest);
    if keys == [] {
      assert body == "}" + rest;
      ParseObjectStart(body);
      assert ("}" + rest)[1..] == rest;
      assert j.fields == map[];
    } else {
      MembersText(j, keys, rest);
      ParseObjectStart(body);
      MembersRoundTrip(j, keys, map[], rest);
      UpdatedAll(j);
    }
  }

  lemma {:induction false} MembersRoundTrip(j: Json, keys: seq<string>, acc: map<string, Json>, rest: string)
    requires j.Obj? && keys != [] && forall k :: k in keys ==> k in j.fields
    ensures ParseMembers(SerializeMembers(j, keys) + "}" + rest, acc) == Some((Obj(Updated(acc, j, keys)), rest))
    decreases j, |keys|
  {
    var key := keys[0];
    var v := j.fields[key];
    var s := SerializeMembers(j, keys) + "}" + rest;
    var follow := MembersTail(j, keys, rest);
    var t := Serialize(v) + follow;
    MembersText(j, keys, rest);
    QuoteRoundTrip(key, ":" + t);
    SerializeStart(v, follow);
    SerializeRoundTrip(v, follow);
    ParseMember(s, acc, key, t, v, follow);
    if |keys| == 1 {
      ParseAfterMemberClose(rest, acc[key := v]);
    } else {
      var more := SerializeMembers(j, keys[1..]) + "}" + rest;
      MembersText(j, keys[1..], rest);
      ParseAfterMemberNext(more, acc[key := v]);
      MembersRoundTrip(j, keys[1..], acc[key := v], rest);
    }
  }

  /** `from_str(&to_string(v)) == v`. */
  lemma ParseSerialize(j: Json)
    ensures Parse(Serialize(j)) == Some(j)
  {
    SerializeStart(j, []);
    assert Serialize(j) + [] == Serialize(j);
    SerializeRoundTrip(j, []);
  }
}
