/** The compact JSON (RFC 8259) that the control payload is written in.
  *
  * Integers, booleans, arrays and objects; strings occur as object keys only and hold no
  * character that JSON would escape.  An object is its list of fields.
  */
module Json {
  import opened Decimals
  import opened Wrappers

  datatype Value = Int(n: int) | Bool(b: bool) | Arr(items: seq<Value>) | Obj(fields: seq<(string, Value)>)

  // ---------- writing ----------

  function Print(v: Value): string {
    match v
    case Int(n) => Decimal(n)
    case Bool(b) => if b then "true" else "false"
    case Arr(items) => "[" + PrintItems(items) + "]"
    case Obj(fields) => "{" + PrintFields(fields) + "}"
  }

  function PrintItems(items: seq<Value>): string {
    if items == [] then ""
    else if |items| == 1 then Print(items[0])
    else Print(items[0]) + "," + PrintItems(items[1..])
  }

  function PrintField(f: (string, Value)): string {
    "\"" + f.0 + "\":" + Print(f.1)
  }

  function PrintFields(fields: seq<(string, Value)>): string {
    if fields == [] then ""
    else if |fields| == 1 then PrintField(fields[0])
    else PrintField(fields[0]) + "," + PrintFields(fields[1..])
  }

  // ---------- reading ----------

  /** The number of leading characters that are digits. */
  function Span(s: string): (n: nat)
    ensures n <= |s| && AllDigits(s[..n])
  {
    if s == [] || !IsDigit(s[0]) then 0 else
      var n := Span(s[1..]);
      assert s[..n + 1] == [s[0]] + s[1..][..n];
      n + 1
  }

  /** A number without a leading zero. */
  function ParseNat(s: string): (r: Option<(nat, string)>)
    ensures r.Some? ==> |r.value.1| < |s|
  {
    var n := Span(s);
    if n == 0 || (n > 1 && s[0] == '0') then None else Some((NatValue(s[..n]), s[n..]))
  }

  /** A key up to its closing quote; escapes are outside this subset. */
  function ParseKey(s: string): (r: Option<(string, string)>)
    ensures r.Some? ==> |r.value.1| < |s|
  {
    if s == [] || s[0] == '\\' then None
    else if s[0] == '\"' then Some(("", s[1..]))
    else
      match ParseKey(s[1..])
      case None => None
      case Some((key, rest)) => Some(([s[0]] + key, rest))
  }

  predicate Starts(s: string, c: char) {
    s != [] && s[0] == c
  }

  function ParseWord(s: string, word: string, v: Value): (r: Option<(Value, string)>)
    requires word != []
    ensures r.Some? ==> |r.value.1| < |s|
  {
    if word <= s then Some((v, s[|word|..])) else None
  }

  function ParseInt(s: string): (r: Option<(Value, string)>)
    ensures r.Some? ==> |r.value.1| < |s|
  {
    if Starts(s, '-') then
      match ParseNat(s[1..])
      case None => None
      case Some((n, rest)) => Some((Int(0 - n), rest))
    else
      match ParseNat(s)
      case None => None
      case Some((n, rest)) => Some((Int(n), rest))
  }

  function ParseValue(s: string): (r: Option<(Value, string)>)
    ensures r.Some? ==> |r.value.1| < |s|
    decreases |s|, 0
  {
    if Starts(s, 't') then ParseWord(s, "true", Bool(true))
    else if Starts(s, 'f') then ParseWord(s, "false", Bool(false))
    else if Starts(s, '[') then
      if Starts(s[1..], ']') then Some((Arr([]), s[2..]))
      else
        match ParseItems(s[1..])
        case None => None
        case Some((items, rest)) => Some((Arr(items), rest))
    else if Starts(s, '{') then
      if Starts(s[1..], '}') then Some((Obj([]), s[2..]))
      else
        match ParseFields(s[1..])
        case None => None
        case Some((fields, rest)) => Some((Obj(fields), rest))
    else ParseInt(s)
  }

  /** Items up to and including the closing bracket. */
  function ParseItems(s: string): (r: Option<(seq<Value>, string)>)
    ensures r.Some? ==> |r.value.1| < |s|
    decreases |s|, 1
  {
    match ParseValue(s)
    case None => None
    case Some((v, rest)) =>
      if Starts(rest, ']') then Some(([v], rest[1..]))
      else if Starts(rest, ',') then
        match ParseItems(rest[1..])
        case None => None
        case Some((items, end)) => Some(([v] + items, end))
      else None
  }

  function ParseField(s: string): (r: Option<((string, Value), string)>)
    ensures r.Some? ==> |r.value.1| < |s|
    decreases |s|, 1
  {
    if !Starts(s, '\"') then None
    else
      match ParseKey(s[1..])
      case None => None
      case Some((key, rest)) =>
        if !Starts(rest, ':') then None
        else
          match ParseValue(rest[1..])
          case None => None
          case Some((v, end)) => Some(((key, v), end))
  }

  /** Fields up to and including the closing brace. */
  function ParseFields(s: string): (r: Option<(seq<(string, Value)>, string)>)
    ensures r.Some? ==> |r.value.1| < |s|
    decreases |s|, 2
  {
    match ParseField(s)
    case None => None
    case Some((f, rest)) =>
      if Starts(rest, '}') then Some(([f], rest[1..]))
      else if Starts(rest, ',') then
        match ParseFields(rest[1..])
        case None => None
        case Some((fields, end)) => Some(([f] + fields, end))
      else None
  }

  function Parse(s: string): Option<Value> {
    match ParseValue(s)
    case Some((v, "")) => Some(v)
    case _ => None
  }

  // ---------- round trip ----------

  predicate PlainKey(key: string) {
    forall i :: 0 <= i < |key| ==> key[i] != '\"' && key[i] != '\\'
  }

  ghost predicate Plain(v: Value) {
    match v
    case Int(_) => true
    case Bool(_) => true
    case Arr(items) => forall i :: 0 <= i < |items| ==> Plain(items[i])
    case Obj(fields) => forall i :: 0 <= i < |fields| ==> PlainKey(fields[i].0) && Plain(fields[i].1)
  }

  /** A number ends here. */
  predicate Ends(rest: string) {
    rest == [] || !IsDigit(rest[0])
  }

  lemma {:induction false} SpanIs(digits: string, rest: string)
    requires AllDigits(digits) && Ends(rest)
    ensures Span(digits + rest) == |digits|
  {
    if digits == [] {
      assert digits + rest == rest;
    } else {
      assert (digits + rest)[1..] == digits[1..] + rest;
      SpanIs(digits[1..], rest);
      assert IsDigit(digits[0]);
    }
  }

  lemma NatRoundTrip(n: nat, rest: string)
    requires Ends(rest)
    ensures ParseNat(Digits(n) + rest) == Some((n, rest))
  {
    DigitsRoundTrip(n);
    SpanIs(Digits(n), rest);
    assert (Digits(n) + rest)[..|Digits(n)|] == Digits(n);
    assert (Digits(n) + rest)[|Digits(n)|..] == rest;
  }

  lemma {:induction false} KeyRoundTrip(key: string, rest: string)
    requires PlainKey(key)
    ensures ParseKey(key + "\"" + rest) == Some((key, rest))
  {
    var s := key + "\"" + rest;
    if key == [] {
      assert s == "\"" + rest;
    } else {
      assert s[1..] == key[1..] + "\"" + rest;
      KeyRoundTrip(key[1..], rest);
      assert key == [key[0]] + key[1..];
    }
  }

  lemma NegativeRoundTrip(n: nat, rest: string)
    requires Ends(rest)
    ensures ParseInt("-" + Digits(n) + rest) == Some((Int(0 - n), rest))
  {
    hide ParseNat, Digits;
    assert ("-" + Digits(n) + rest)[1..] == Digits(n) + rest;
    NatRoundTrip(n, rest);
  }

  lemma NonNegativeRoundTrip(n: nat, rest: string)
    requires Ends(rest)
    ensures ParseInt(Digits(n) + rest) == Some((Int(n), rest))
  {
    DigitsRoundTrip(n);
    hide ParseNat, Digits, NatValue;
    NatRoundTrip(n, rest);
    assert IsDigit((Digits(n) + rest)[0]);
  }

  lemma IntRoundTrip(n: int, rest: string)
    requires Ends(rest)
    ensures ParseInt(Decimal(n) + rest) == Some((Int(n), rest))
  {
    hide ParseInt, Digits;
    if n < 0 {
      NegativeRoundTrip(-n, rest);
    } else {
      NonNegativeRoundTrip(n, rest);
    }
  }

  lemma DecimalStarts(n: int)
    ensures Decimal(n) != [] && (Decimal(n)[0] == '-' || IsDigit(Decimal(n)[0]))
  {
    DigitsRoundTrip(if n < 0 then -n else n);
    hide Digits;
  }

  lemma WordRoundTrip(b: bool, rest: string)
    ensures ParseValue(Print(Bool(b)) + rest) == Some((Bool(b), rest))
  {
    var word := if b then "true" else "false";
    var s := word + rest;
    assert word <= s && s[|word|..] == rest;
  }

  /** No written value begins like the end of a list. */
  lemma FirstCharacter(v: Value)
    ensures Print(v) != [] && Print(v)[0] != ']' && Print(v)[0] != '}'
  {
    if v.Int? {
      DecimalStarts(v.n);
    }
  }

  lemma PlainParts(v: Value)
    requires Plain(v)
    ensures v.Arr? ==> forall i :: 0 <= i < |v.items| ==> Plain(v.items[i])
    ensures v.Obj? ==> forall i :: 0 <= i < |v.fields| ==> PlainKey(v.fields[i].0) && Plain(v.fields[i].1)
  {
  }

  lemma EmptyRoundTrip(rest: string)
    ensures ParseValue(Print(Arr([])) + rest) == Some((Arr([]), rest))
    ensures ParseValue(Print(Obj([])) + rest) == Some((Obj([]), rest))
  {
    hide ParseItems, ParseFields, ParseInt, ParseWord;
    EmptyPrints();
    hide Print;
    assert (['[', ']'] + rest)[1..] == [']'] + rest && (['[', ']'] + rest)[2..] == rest;
    assert (['{', '}'] + rest)[1..] == ['}'] + rest && (['{', '}'] + rest)[2..] == rest;
  }

  lemma EmptyPrints()
    ensures Print(Arr([])) == ['[', ']'] && Print(Obj([])) == ['{', '}']
  {
    assert PrintItems([]) == "" && PrintFields([]) == "";
  }

  lemma {:induction false} ValueRoundTrip(v: Value, rest: string)
    requires Plain(v) && Ends(rest)
    ensures ParseValue(Print(v) + rest) == Some((v, rest))
    decreases v, 0
  {
    hide ParseItems, ParseFields, ParseInt, ParseWord, Decimal, Plain;
    PlainParts(v);
    var s := Print(v) + rest;
    match v
    case Int(n) =>
      DecimalStarts(n);
      IntRoundTrip(n, rest);
    case Bool(b) => WordRoundTrip(b, rest);
    case Arr(items) =>
      if items == [] {
        EmptyRoundTrip(rest);
      } else {
        assert s[1..] == PrintItems(items) + "]" + rest;
        FirstCharacter(items[0]);
        assert !Starts(s[1..], ']');
        ItemsRoundTrip(items, rest);
      }
    case Obj(fields) =>
      if fields == [] {
        EmptyRoundTrip(rest);
      } else {
        assert s[1..] == PrintFields(fields) + "}" + rest;
        assert Starts(PrintField(fields[0]), '\"');
        assert !Starts(s[1..], '}');
        FieldsRoundTrip(fields, rest);
      }
  }

  lemma {:induction false} ItemsRoundTrip(items: seq<Value>, rest: string)
    requires items != [] && forall i :: 0 <= i < |items| ==> Plain(items[i])
    ensures ParseItems(PrintItems(items) + "]" + rest) == Some((items, rest))
    decreases items, 1
  {
    hide ParseValue, Print, Plain;
    var s := PrintItems(items) + "]" + rest;
    if |items| == 1 {
      assert s == Print(items[0]) + ("]" + rest);
      ValueRoundTrip(items[0], "]" + rest);
      assert ("]" + rest)[1..] == rest && items == [items[0]];
    } else {
      var more := PrintItems(items[1..]) + "]" + rest;
      assert s == Print(items[0]) + ("," + more);
      ValueRoundTrip(items[0], "," + more);
      assert ("," + more)[1..] == more;
      ItemsRoundTrip(items[1..], rest);
      assert items == [items[0]] + items[1..];
    }
  }

  lemma {:induction false} FieldRoundTrip(f: (string, Value), rest: string)
    requires PlainKey(f.0) && Plain(f.1) && Ends(rest)
    ensures ParseField(PrintField(f) + rest) == Some((f, rest))
    decreases f, 0
  {
    hide ParseValue, Print, Plain, ParseKey;
    var s := PrintField(f) + rest;
    assert s[1..] == f.0 + "\"" + (":" + Print(f.1) + rest);
    KeyRoundTrip(f.0, ":" + Print(f.1) + rest);
    assert (":" + Print(f.1) + rest)[1..] == Print(f.1) + rest;
    ValueRoundTrip(f.1, rest);
  }

  lemma {:induction false} FieldsRoundTrip(fields: seq<(string, Value)>, rest: string)
    requires fields != [] && forall i :: 0 <= i < |fields| ==> PlainKey(fields[i].0) && Plain(fields[i].1)
    ensures ParseFields(PrintFields(fields) + "}" + rest) == Some((fields, rest))
    decreases fields, 1
  {
    hide ParseField, PrintField, Plain;
    var s := PrintFields(fields) + "}" + rest;
    if |fields| == 1 {
      assert s == PrintField(fields[0]) + ("}" + rest);
      FieldRoundTrip(fields[0], "}" + rest);
      assert ("}" + rest)[1..] == rest && fields == [fields[0]];
    } else {
      var more := PrintFields(fields[1..]) + "}" + rest;
      assert s == PrintField(fields[0]) + ("," + more);
      FieldRoundTrip(fields[0], "," + more);
      assert ("," + more)[1..] == more;
      FieldsRoundTrip(fields[1..], rest);
      assert fields == [fields[0]] + fields[1..];
    }
  }

  /** Reading what was written gives back the value. */
  lemma ParsePrint(v: Value)
    requires Plain(v)
    ensures Parse(Print(v)) == Some(v)
  {
    ValueRoundTrip(v, "");
    assert Print(v) + "" == Print(v);
  }
}
