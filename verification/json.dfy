/** The canonical serialiser of lib/merkleCore.ts: key-sorted JSON text over strings,
    integers, null, arrays and objects, with a parser that undoes it. */
module Json {
  import opened Wrappers
  import opened JsString

  /** An object lists its keys and their values in insertion order, as the runtime keeps them. */
  datatype Json =
    | Null
    | Num(n: int)
    | Text(s: Str)
    | Arr(items: seq<Json>)
    | Obj(keys: seq<Str>, values: seq<Json>)

  /** What a JSON text denotes: an object is an unordered map from keys to values. */
  datatype Value =
    | NullValue
    | NumValue(n: int)
    | TextValue(s: Str)
    | ArrValue(items: seq<Value>)
    | ObjValue(fields: map<Str, Value>)

  const BACKSPACE: CodeUnit := 8
  const TAB: CodeUnit := 9
  const NEWLINE: CodeUnit := 10
  const FORM_FEED: CodeUnit := 12
  const RETURN: CodeUnit := 13
  const QUOTE: CodeUnit := 34
  const COMMA: CodeUnit := 44
  const MINUS: CodeUnit := 45
  const COLON: CodeUnit := 58
  const OPEN_BRACKET: CodeUnit := 91
  const BACKSLASH: CodeUnit := 92
  const CLOSE_BRACKET: CodeUnit := 93
  const OPEN_BRACE: CodeUnit := 123
  const CLOSE_BRACE: CodeUnit := 125
  const NULL_TEXT: Str := [110, 117, 108, 108]

  // ----- strings: JSON.stringify and section 7 of RFC 8259 -------------------

  predicate IsHigh(u: CodeUnit) { 0xD800 <= u <= 0xDBFF }

  predicate IsLow(u: CodeUnit) { 0xDC00 <= u <= 0xDFFF }

  predicate StartsWithPair(s: Str) {
    |s| >= 2 && IsHigh(s[0]) && IsLow(s[1])
  }

  function HexDigit(n: nat): (c: CodeUnit)
    requires n < 16
  {
    if n < 10 then (48 + n) as CodeUnit else (87 + n) as CodeUnit
  }

  function HexValue(c: CodeUnit): (r: Option<nat>)
    ensures r.Some? ==> r.value < 16
  {
    if 48 <= c <= 57 then Some((c - 48) as nat)
    else if 97 <= c <= 102 then Some((c - 87) as nat)
    else if 65 <= c <= 70 then Some((c - 55) as nat)
    else None
  }

  function Hex4(u: CodeUnit): Str {
    var n := u as int;
    [HexDigit(n / 4096), HexDigit(n / 256 % 16), HexDigit(n / 16 % 16), HexDigit(n % 16)]
  }

  function ParseHex4(t: Str): Option<CodeUnit>
    requires |t| == 4
  {
    var a, b, c, d := HexValue(t[0]), HexValue(t[1]), HexValue(t[2]), HexValue(t[3]);
    if a.Some? && b.Some? && c.Some? && d.Some? then
      Some((4096 * a.value + 256 * b.value + 16 * c.value + d.value) as CodeUnit)
    else None
  }

  /** The text of one code unit that is not half of a surrogate pair. */
  function EscapeUnit(u: CodeUnit): Str {
    if u == QUOTE || u == BACKSLASH then [BACKSLASH, u]
    else if u == BACKSPACE then [BACKSLASH, 98]
    else if u == FORM_FEED then [BACKSLASH, 102]
    else if u == NEWLINE then [BACKSLASH, 110]
    else if u == RETURN then [BACKSLASH, 114]
    else if u == TAB then [BACKSLASH, 116]
    else if u < 32 || IsHigh(u) || IsLow(u) then [BACKSLASH, 117] + Hex4(u)
    else [u]
  }

  function Escape(s: Str): Str {
    if s == [] then []
    else if StartsWithPair(s) then s[..2] + Escape(s[2..])
    else EscapeUnit(s[0]) + Escape(s[1..])
  }

  function Quote(s: Str): Str {
    [QUOTE] + Escape(s) + [QUOTE]
  }

  // ----- integers ------------------------------------------------------------

  function Digits(n: nat): Str {
    if n < 10 then [(48 + n) as CodeUnit] else Digits(n / 10) + [(48 + n % 10) as CodeUnit]
  }

  function IntText(n: int): Str {
    if n < 0 then [MINUS] + Digits(-n) else Digits(n)
  }

  // ----- stableStringify -----------------------------------------------------

  function JoinComma(parts: seq<Str>): Str {
    if parts == [] then []
    else if |parts| == 1 then parts[0]
    else parts[0] + [COMMA] + JoinComma(parts[1..])
  }

  /** The `"key":value` texts of an object. */
  function Members(fields: seq<(Str, Str)>): seq<Str> {
    if fields == [] then [] else [Quote(fields[0].0) + [COLON] + fields[0].1] + Members(fields[1..])
  }

  function Zip<V>(keys: seq<Str>, values: seq<V>): seq<(Str, V)> {
    seq(if |keys| <= |values| then |keys| else |values|,
        i requires 0 <= i < |keys| && i < |values| => (keys[i], values[i]))
  }

  function Stringify(j: Json): Str {
    match j
    case Null => NULL_TEXT
    case Num(n) => IntText(n)
    case Text(s) => Quote(s)
    case Arr(items) => [OPEN_BRACKET] + JoinComma(StringifyItems(items)) + [CLOSE_BRACKET]
    case Obj(keys, values) =>
      [OPEN_BRACE] + JoinComma(Members(SortByKey(Zip(keys, StringifyItems(values))))) + [CLOSE_BRACE]
  }

  function StringifyItems(items: seq<Json>): seq<Str> {
    seq(|items|, i requires 0 <= i < |items| => Stringify(items[i]))
  }

  // ----- the value denoted ---------------------------------------------------

  /** Object keys are distinct at every depth, which the runtime guarantees. */
  ghost predicate Proper(j: Json) {
    match j
    case Arr(items) => forall i :: 0 <= i < |items| ==> Proper(items[i])
    case Obj(keys, values) =>
      |keys| == |values| &&
      (forall i, k :: 0 <= i < k < |keys| ==> keys[i] != keys[k]) &&
      (forall i :: 0 <= i < |values| ==> Proper(values[i]))
    case _ => true
  }

  ghost function Meaning(j: Json): Value {
    match j
    case Null => NullValue
    case Num(n) => NumValue(n)
    case Text(s) => TextValue(s)
    case Arr(items) => ArrValue(MeaningItems(items))
    case Obj(keys, values) => ObjValue(ToMap(Zip(keys, MeaningItems(values))))
  }

  ghost function MeaningItems(items: seq<Json>): seq<Value> {
    seq(|items|, i requires 0 <= i < |items| => Meaning(items[i]))
  }

  ghost function ToMap<V>(entries: seq<(Str, V)>): map<Str, V> {
    if entries == [] then map[] else ToMap(entries[1..])[entries[0].0 := entries[0].1]
  }

  // ----- the parser ----------------------------------------------------------

  /** One character of a string body, escaped or plain. */
  function ParseUnit(t: Str): (r: Option<(CodeUnit, Str)>)
    ensures r.Some? ==> |r.value.1| < |t|
  {
    if t == [] || t[0] == QUOTE || t[0] < 32 then None
    else if t[0] != BACKSLASH then Some((t[0], t[1..]))
    else if |t| < 2 then None
    else if t[1] == QUOTE || t[1] == BACKSLASH || t[1] == 47 then Some((t[1], t[2..]))
    else if t[1] == 98 then Some((BACKSPACE, t[2..]))
    else if t[1] == 102 then Some((FORM_FEED, t[2..]))
    else if t[1] == 110 then Some((NEWLINE, t[2..]))
    else if t[1] == 114 then Some((RETURN, t[2..]))
    else if t[1] == 116 then Some((TAB, t[2..]))
    else if t[1] == 117 && |t| >= 6 then
      match ParseHex4(t[2..6])
      case Some(u) => Some((u, t[6..]))
      case None => None
    else None
  }

  /** A string body up to and including the closing quote. */
  function ParseBody(t: Str): (r: Option<(Str, Str)>)
    ensures r.Some? ==> |r.value.1| < |t|
    decreases |t|
  {
    if t != [] && t[0] == QUOTE then Some(([], t[1..]))
    else
      match ParseUnit(t)
      case None => None
      case Some((u, rest)) =>
        match ParseBody(rest)
        case None => None
        case Some((s, rest')) => Some(([u] + s, rest'))
  }

  predicate IsDigit(c: CodeUnit) { 48 <= c <= 57 }

  function TakeDigits(t: Str): (r: Str)
    ensures |r| <= |t|
  {
    if t != [] && IsDigit(t[0]) then [t[0]] + TakeDigits(t[1..]) else []
  }

  function DigitsValue(ds: Str): int {
    if ds == [] then 0 else 10 * DigitsValue(ds[..|ds| - 1]) + (ds[|ds| - 1] as int - 48)
  }

  function ParseNat(t: Str): (r: Option<(int, Str)>)
    ensures r.Some? ==> |r.value.1| < |t|
  {
    var ds := TakeDigits(t);
    if ds == [] then None else Some((DigitsValue(ds), t[|ds|..]))
  }

  function ParseValue(t: Str): (r: Option<(Json, Str)>)
    ensures r.Some? ==> |r.value.1| < |t|
    decreases |t|, 0
  {
    if t == [] then None
    else if t[0] == 110 then
      if |t| >= 4 && t[..4] == NULL_TEXT then Some((Null, t[4..])) else None
    else if t[0] == QUOTE then
      match ParseBody(t[1..])
      case Some((s, rest)) => Some((Text(s), rest))
      case None => None
    else if t[0] == OPEN_BRACKET then
      if |t| >= 2 && t[1] == CLOSE_BRACKET then Some((Arr([]), t[2..]))
      else
        match ParseItems(t[1..])
        case Some((items, rest)) => Some((Arr(items), rest))
        case None => None
    else if t[0] == OPEN_BRACE then
      if |t| >= 2 && t[1] == CLOSE_BRACE then Some((Obj([], []), t[2..]))
      else
        match ParseFields(t[1..])
        case Some((keys, values, rest)) => Some((Obj(keys, values), rest))
        case None => None
    else if t[0] == MINUS then
      match ParseNat(t[1..])
      case Some((n, rest)) => Some((Num(-n), rest))
      case None => None
    else
      match ParseNat(t)
      case Some((n, rest)) => Some((Num(n), rest))
      case None => None
  }

  /** A non-empty element list and its closing bracket. */
  function ParseItems(t: Str): (r: Option<(seq<Json>, Str)>)
    ensures r.Some? ==> |r.value.1| < |t|
    decreases |t|, 1
  {
    match ParseValue(t)
    case None => None
    case Some((j, rest)) =>
      if rest != [] && rest[0] == CLOSE_BRACKET then Some(([j], rest[1..]))
      else if rest != [] && rest[0] == COMMA then
        match ParseItems(rest[1..])
        case Some((items, rest')) => Some(([j] + items, rest'))
        case None => None
      else None
  }

  /** A non-empty member list and its closing brace. */
  function ParseFields(t: Str): (r: Option<(seq<Str>, seq<Json>, Str)>)
    ensures r.Some? ==> |r.value.2| < |t|
    decreases |t|, 1
  {
    if t == [] || t[0] != QUOTE then None
    else
      match ParseBody(t[1..])
      case None => None
      case Some((key, rest)) =>
        if rest == [] || rest[0] != COLON then None
        else
          match ParseValue(rest[1..])
          case None => None
          case Some((j, rest')) =>
            if rest' != [] && rest'[0] == CLOSE_BRACE then Some(([key], [j], rest'[1..]))
            else if rest' != [] && rest'[0] == COMMA then
              match ParseFields(rest'[1..])
              case Some((keys, values, rest'')) => Some(([key] + keys, [j] + values, rest''))
              case None => None
            else None
  }
}
