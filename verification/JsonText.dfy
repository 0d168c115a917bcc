/**
 * JSON texts as the grammar of RFC 8259 derives them: a derivation keeps every blank and every
 * escape, and its text is what it spells out in UTF-16 code units.
 */
module JsonText {
  import opened Prelude

  newtype CodeUnit = x: int | 0 <= x < 0x1_0000

  type Text = seq<CodeUnit>

  const QUOTE: CodeUnit := 0x22
  const BACKSLASH: CodeUnit := 0x5C
  const COMMA: CodeUnit := 0x2C
  const COLON: CodeUnit := 0x3A
  const LBRACE: CodeUnit := 0x7B
  const RBRACE: CodeUnit := 0x7D
  const LBRACKET: CodeUnit := 0x5B
  const RBRACKET: CodeUnit := 0x5D

  /** Section 2: space, tab, line feed, carriage return. */
  predicate IsBlank(c: CodeUnit) { c == 0x20 || c == 0x09 || c == 0x0A || c == 0x0D }

  predicate Blank(t: Text) { forall i :: 0 <= i < |t| ==> IsBlank(t[i]) }

  // ---------------------------------------------------------------- strings, section 7

  datatype Item = Plain(c: CodeUnit) | Escape(c: CodeUnit) | Hex(digits: Text)

  predicate IsHexDigit(c: CodeUnit) { 0x30 <= c <= 0x39 || 0x41 <= c <= 0x46 || 0x61 <= c <= 0x66 }

  /** What a backslash and this letter stand for. */
  function EscapeValue(c: CodeUnit): Option<CodeUnit> {
    if c == QUOTE || c == BACKSLASH || c == 0x2F then Some(c)
    else if c == 0x62 then Some(0x08)
    else if c == 0x66 then Some(0x0C)
    else if c == 0x6E then Some(0x0A)
    else if c == 0x72 then Some(0x0D)
    else if c == 0x74 then Some(0x09)
    else None
  }

  function HexDigit(c: CodeUnit): (d: int)
    requires IsHexDigit(c)
    ensures 0 <= d < 16
  {
    if c <= 0x39 then c as int - 0x30 else if c <= 0x46 then c as int - 0x37 else c as int - 0x57
  }

  predicate IsHex(t: Text) { |t| == 4 && forall i :: 0 <= i < 4 ==> IsHexDigit(t[i]) }

  function HexValue(t: Text): CodeUnit
    requires IsHex(t)
  {
    (HexDigit(t[0]) * 4096 + HexDigit(t[1]) * 256 + HexDigit(t[2]) * 16 + HexDigit(t[3])) as CodeUnit
  }

  predicate WfItem(i: Item) {
    match i
    case Plain(c) => c >= 0x20 && c != QUOTE && c != BACKSLASH
    case Escape(c) => EscapeValue(c).Some?
    case Hex(digits) => IsHex(digits)
  }

  predicate WfItems(items: seq<Item>) { forall i :: 0 <= i < |items| ==> WfItem(items[i]) }

  function ItemText(i: Item): Text {
    match i
    case Plain(c) => [c]
    case Escape(c) => [BACKSLASH, c]
    case Hex(digits) => [BACKSLASH, 0x75] + digits
  }

  function ItemsText(items: seq<Item>): Text {
    if |items| == 0 then [] else ItemText(items[0]) + ItemsText(items[1..])
  }

  function StringText(items: seq<Item>): Text { [QUOTE] + ItemsText(items) + [QUOTE] }

  function ItemValue(i: Item): CodeUnit
    requires WfItem(i)
  {
    match i
    case Plain(c) => c
    case Escape(c) => EscapeValue(c).value
    case Hex(digits) => HexValue(digits)
  }

  /** The string a literal denotes. */
  function StringValue(items: seq<Item>): Text
    requires WfItems(items)
  {
    if |items| == 0 then [] else [ItemValue(items[0])] + StringValue(items[1..])
  }

  // ---------------------------------------------------------------- numbers and literals, sections 3 and 6

  datatype Exponent = Exponent(e: CodeUnit, sign: Text, digits: Text)

  datatype Literal = True | False | Null | Number(minus: bool, whole: Text, fraction: Text, exponent: Option<Exponent>)

  predicate Digits(t: Text) { |t| > 0 && forall i :: 0 <= i < |t| ==> 0x30 <= t[i] <= 0x39 }

  /** `fraction` is empty or holds the digits behind the point. */
  predicate WfLiteral(l: Literal) {
    l.Number? ==>
      && Digits(l.whole) && (l.whole[0] == 0x30 ==> |l.whole| == 1)
      && (l.fraction == [] || Digits(l.fraction))
      && (l.exponent.Some? ==>
            var x := l.exponent.value;
            (x.e == 0x65 || x.e == 0x45) && (x.sign == [] || x.sign == [0x2B] || x.sign == [0x2D]) && Digits(x.digits))
  }

  function LiteralText(l: Literal): Text {
    match l
    case True => [0x74, 0x72, 0x75, 0x65]
    case False => [0x66, 0x61, 0x6C, 0x73, 0x65]
    case Null => [0x6E, 0x75, 0x6C, 0x6C]
    case Number(minus, whole, fraction, exponent) =>
      (if minus then [0x2D] else []) + whole + (if fraction == [] then [] else [0x2E] + fraction) + ExponentText(exponent)
  }

  function ExponentText(x: Option<Exponent>): Text {
    match x
    case None => []
    case Some(Exponent(e, sign, digits)) => [e] + sign + digits
  }

  // ---------------------------------------------------------------- values, sections 3 to 5

  datatype Value =
    | String(items: seq<Item>)
    | Simple(literal: Literal)
    | Array(empty: Text, elements: Elements)
    | Object(empty: Text, members: Members)

  /** Blanks may stand before and after every value and every name. `empty` are those of `[ ]` and `{ }`. */
  datatype Elements = NoElements | Element(before: Text, value: Value, after: Text, rest: Elements)

  datatype Members =
    | NoMembers
    | Member(before: Text, name: seq<Item>, afterName: Text, beforeValue: Text, value: Value, after: Text, rest: Members)

  predicate WfValue(v: Value) {
    match v
    case String(items) => WfItems(items)
    case Simple(l) => WfLiteral(l)
    case Array(empty, elements) => Blank(empty) && WfElements(elements)
    case Object(empty, members) => Blank(empty) && WfMembers(members)
  }

  predicate WfElements(e: Elements) {
    e.Element? ==> Blank(e.before) && WfValue(e.value) && Blank(e.after) && WfElements(e.rest)
  }

  predicate WfMembers(m: Members) {
    m.Member? ==>
      && Blank(m.before) && WfItems(m.name) && Blank(m.afterName) && Blank(m.beforeValue)
      && WfValue(m.value) && Blank(m.after) && WfMembers(m.rest)
  }

  function ValueText(v: Value): Text {
    match v
    case String(items) => StringText(items)
    case Simple(l) => LiteralText(l)
    case Array(empty, elements) =>
      [LBRACKET] + (if elements.NoElements? then empty else ElementsText(elements)) + [RBRACKET]
    case Object(empty, members) =>
      [LBRACE] + (if members.NoMembers? then empty else MembersText(members)) + [RBRACE]
  }

  function ElementsText(e: Elements): Text {
    match e
    case NoElements => []
    case Element(before, value, after, rest) =>
      before + ValueText(value) + after + (if rest.NoElements? then [] else [COMMA] + ElementsText(rest))
  }

  function MembersText(m: Members): Text {
    match m
    case NoMembers => []
    case Member(before, name, afterName, beforeValue, value, after, rest) =>
      before + StringText(name) + afterName + [COLON] + beforeValue + ValueText(value) + after
      + (if rest.NoMembers? then [] else [COMMA] + MembersText(rest))
  }

  /** The decoded names of the members, in order, duplicates included. */
  function Names(m: Members): seq<Text>
    requires WfMembers(m)
  {
    match m
    case NoMembers => []
    case Member(_, name, _, _, _, _, rest) => [StringValue(name)] + Names(rest)
  }
}
