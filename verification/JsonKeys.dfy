/** The scanner that lists the top-level keys of a JSON object text without parsing its values. */
module JsonKeys {
  import opened Prelude
  import opened JsonText

  // ---------------------------------------------------------------- what the scanner computes

  /** White space in the sense of a regular expression's \s, which is wider than JSON's. */
  predicate IsSpace(c: CodeUnit) {
    || 0x09 <= c <= 0x0D || c == 0x20 || c == 0xA0 || c == 0x1680 || 0x2000 <= c <= 0x200A
    || c == 0x2028 || c == 0x2029 || c == 0x202F || c == 0x205F || c == 0x3000 || c == 0xFEFF
  }

  function SkipSpace(raw: Text, i: nat): (r: nat)
    ensures i <= r && (i <= |raw| ==> r <= |raw|)
    ensures r < |raw| ==> !IsSpace(raw[r])
    decreases |raw| - i
  {
    if i < |raw| && IsSpace(raw[i]) then SkipSpace(raw, i + 1) else i
  }

  /** One past the closing quote, reading from inside a string. */
  function StringEnd(raw: Text, i: nat, escaped: bool): (r: Option<nat>)
    ensures r.Some? ==> i < r.value <= |raw|
    decreases |raw| - i
  {
    if i >= |raw| then None
    else if escaped then StringEnd(raw, i + 1, false)
    else if raw[i] == BACKSLASH then StringEnd(raw, i + 1, true)
    else if raw[i] == QUOTE then Some(i + 1)
    else StringEnd(raw, i + 1, false)
  }

  datatype Scan = Scan(depth: nat, inString: bool, escaped: bool)

  /** One character inside a value; None where the value is over. */
  function Eat(s: Scan, c: CodeUnit): Option<Scan> {
    if s.inString then
      if s.escaped then Some(s.(escaped := false))
      else if c == BACKSLASH then Some(s.(escaped := true))
      else if c == QUOTE then Some(s.(inString := false))
      else Some(s)
    else if c == QUOTE then Some(s.(inString := true))
    else if c == LBRACE || c == LBRACKET then Some(s.(depth := s.depth + 1))
    else if c == RBRACE || c == RBRACKET then
      if s.depth == 0 then None else Some(s.(depth := s.depth - 1))
    else if s.depth == 0 && c == COMMA then None
    else Some(s)
  }

  function ValueEnd(raw: Text, i: nat, s: Scan): (r: nat)
    requires i <= |raw|
    ensures i <= r <= |raw|
    decreases |raw| - i
  {
    if i == |raw| then i
    else match Eat(s, raw[i])
         case None => i
         case Some(s') => ValueEnd(raw, i + 1, s')
  }

  /** `JSON.parse` of a string literal, given what stands between its quotes; None where it throws. */
  function Unescape(t: Text): Option<Text>
    decreases |t|
  {
    if |t| == 0 then Some([])
    else if t[0] != BACKSLASH then
      if t[0] < 0x20 || t[0] == QUOTE then None else Prepend([t[0]], Unescape(t[1..]))
    else if |t| >= 6 && t[1] == 0x75 && IsHex(t[2..6]) then Prepend([HexValue(t[2..6])], Unescape(t[6..]))
    else if |t| >= 2 && EscapeValue(t[1]).Some? then Prepend([EscapeValue(t[1]).value], Unescape(t[2..]))
    else None
  }

  function Prepend<T>(front: seq<T>, rest: Option<seq<T>>): Option<seq<T>> {
    match rest
    case None => None
    case Some(t) => Some(front + t)
  }

  lemma PrependNothing<T>(rest: Option<seq<T>>)
    ensures Prepend([], rest) == rest
  {
    if rest.Some? {
      assert [] + rest.value == rest.value;
    }
  }

  lemma PrependTwice<T>(a: seq<T>, b: seq<T>, rest: Option<seq<T>>)
    ensures Prepend(a, Prepend(b, rest)) == Prepend(a + b, rest)
  {
    if rest.Some? {
      assert a + (b + rest.value) == a + b + rest.value;
    }
  }

  predicate IsAt(raw: Text, i: nat, c: CodeUnit) { i < |raw| && raw[i] == c }

  /** One member: its name, and where the scanner stands behind the value; None where it gives up. */
  function ScanMember(raw: Text, start: nat): (r: Option<(Text, nat)>)
    requires start <= |raw|
    ensures r.Some? ==> start < r.value.1 <= |raw|
  {
    var i := SkipSpace(raw, start);
    var end := if IsAt(raw, i, QUOTE) then StringEnd(raw, i + 1, false) else None;
    if end.None? then None
    else
      var name := Unescape(raw[i + 1..end.value - 1]);
      var colon := SkipSpace(raw, end.value);
      if name.None? || !IsAt(raw, colon, COLON) then None
      else Some((name.value, SkipSpace(raw, ValueEnd(raw, SkipSpace(raw, colon + 1), Scan(0, false, false)))))
  }

  function ScanMembers(raw: Text, start: nat): Option<seq<Text>>
    requires start <= |raw|
    decreases |raw| - start, 1
  {
    match ScanMember(raw, start)
    case None => None
    case Some((name, i)) => ScanBehind(raw, name, i)
  }

  /** Behind a value stands the closing brace, or a comma and the next member. */
  function ScanBehind(raw: Text, name: Text, i: nat): Option<seq<Text>>
    requires i <= |raw|
    decreases |raw| - i, 0
  {
    if IsAt(raw, i, RBRACE) then Some([name])
    else if !IsAt(raw, i, COMMA) then None
    else Prepend([name], ScanMembers(raw, SkipSpace(raw, i + 1)))
  }

  function ScanKeys(raw: Text): Option<seq<Text>> {
    var i := SkipSpace(raw, 0);
    if !IsAt(raw, i, LBRACE) then None
    else
      var j := SkipSpace(raw, i + 1);
      if IsAt(raw, j, RBRACE) then Some([]) else ScanMembers(raw, j)
  }

  // ---------------------------------------------------------------- the loops

  method SkipWhitespace(raw: Text, start: nat) returns (index: nat)
    ensures index == SkipSpace(raw, start)
  {
    index := start;
    while index < |raw| && IsSpace(raw[index])
      invariant SkipSpace(raw, index) == SkipSpace(raw, start)
    {
      index := index + 1;
    }
  }

  method ReadStringEnd(raw: Text, start: nat) returns (end: Option<nat>)
    ensures end == if IsAt(raw, start, QUOTE) then StringEnd(raw, start + 1, false) else None
  {
    if !IsAt(raw, start, QUOTE) { return None; }
    var escaped, index := false, start + 1;
    while index < |raw|
      invariant StringEnd(raw, index, escaped) == StringEnd(raw, start + 1, false)
    {
      var c := raw[index];
      if escaped {
        escaped := false;
      } else if c == BACKSLASH {
        escaped := true;
      } else if c == QUOTE {
        return Some(index + 1);
      }
      index := index + 1;
    }
    end := None;
  }

  method SkipValue(raw: Text, start: nat) returns (index: nat)
    requires start <= |raw|
    ensures index == ValueEnd(raw, start, Scan(0, false, false))
  {
    index := start;
    var depth: nat, inString, escaped := 0, false, false;
    while index < |raw|
      invariant index <= |raw|
      invariant ValueEnd(raw, index, Scan(depth, inString, escaped)) == ValueEnd(raw, start, Scan(0, false, false))
    {
      var c := raw[index];
      if inString {
        if escaped { escaped := false; }
        else if c == BACKSLASH { escaped := true; }
        else if c == QUOTE { inString := false; }
      } else if c == QUOTE {
        inString := true;
      } else if c == LBRACE || c == LBRACKET {
        depth := depth + 1;
      } else if c == RBRACE || c == RBRACKET {
        if depth == 0 { return; }
        depth := depth - 1;
      } else if depth == 0 && c == COMMA {
        return;
      }
      index := index + 1;
    }
  }

  /** The body of the scanner's loop up to the character behind the value. */
  method ReadMember(raw: Text, start: nat) returns (r: Option<(Text, nat)>)
    requires start <= |raw|
    ensures r == ScanMember(raw, start)
  {
    hide SkipSpace, StringEnd, ValueEnd, Unescape;
    var index := SkipWhitespace(raw, start);
    var end := ReadStringEnd(raw, index);
    if end.None? { return None; }
    var key := Unescape(raw[index + 1..end.value - 1]);
    if key.None? { return None; }
    index := SkipWhitespace(raw, end.value);
    if !IsAt(raw, index, COLON) { return None; }
    index := SkipWhitespace(raw, index + 1);
    index := SkipValue(raw, index);
    index := SkipWhitespace(raw, index);
    r := Some((key.value, index));
  }

  method TopLevelKeys(raw: Text) returns (r: Option<seq<Text>>)
    ensures r == ScanKeys(raw)
  {
    hide SkipSpace, ScanMember;
    var index := SkipWhitespace(raw, 0);
    if !IsAt(raw, index, LBRACE) { return None; }
    index := SkipWhitespace(raw, index + 1);
    var keys: seq<Text> := [];
    if IsAt(raw, index, RBRACE) { return Some(keys); }
    ghost var first := index;
    PrependNothing(ScanMembers(raw, index));
    while index < |raw|
      invariant first <= |raw| && index <= |raw|
      invariant Prepend(keys, ScanMembers(raw, index)) == ScanMembers(raw, first)
    {
      var m := ReadMember(raw, index);
      if m.None? { return None; }
      var next := m.value.1;
      if IsAt(raw, next, RBRACE) { return Some(keys + [m.value.0]); }
      if !IsAt(raw, next, COMMA) { return None; }
      index := SkipWhitespace(raw, next + 1);
      PrependTwice(keys, [m.value.0], ScanMembers(raw, index));
      keys := keys + [m.value.0];
    }
    ScanAtEnd(raw);
    r := None;
  }

  lemma ScanAtEnd(raw: Text)
    ensures ScanMembers(raw, |raw|) == None
  {
  }
}
