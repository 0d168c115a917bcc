/** The key scanner against the grammar: on every well-formed object it lists exactly the member names. */
module JsonScan {
  import opened Prelude
  import opened JsonText
  import opened JsonKeys

  // ---------------------------------------------------------------- running the value automaton over a text

  function Feed(s: Scan, t: Text): Option<Scan>
    decreases |t|
  {
    if |t| == 0 then Some(s)
    else match Eat(s, t[0])
         case None => None
         case Some(s') => Feed(s', t[1..])
  }

  lemma {:induction false} FeedConcat(s: Scan, a: Text, b: Text)
    requires Feed(s, a).Some?
    ensures Feed(s, a + b) == Feed(Feed(s, a).value, b)
    decreases |a|
  {
    if |a| > 0 {
      assert (a + b)[1..] == a[1..] + b;
      FeedConcat(Eat(s, a[0]).value, a[1..], b);
    } else {
      assert a + b == b;
    }
  }

  /** Characters that mean nothing outside a string; a comma only counts at depth zero. */
  predicate Quiet(depth: nat, c: CodeUnit) {
    && c != QUOTE && c != LBRACE && c != RBRACE && c != LBRACKET && c != RBRACKET
    && (depth == 0 ==> c != COMMA)
  }

  predicate AllQuiet(depth: nat, t: Text) { forall i :: 0 <= i < |t| ==> Quiet(depth, t[i]) }

  lemma {:induction false} FeedQuiet(d: nat, t: Text)
    requires AllQuiet(d, t)
    ensures Feed(Scan(d, false, false), t) == Some(Scan(d, false, false))
  {
    if |t| > 0 {
      assert Quiet(d, t[0]);
      FeedQuiet(d, t[1..]);
    }
  }

  lemma FeedItem(d: nat, i: Item)
    requires WfItem(i)
    ensures Feed(Scan(d, true, false), ItemText(i)) == Some(Scan(d, true, false))
  {
    var s := Scan(d, true, false);
    match i {
      case Plain(c) => assert ItemText(i)[1..] == [];
      case Escape(c) =>
        assert ItemText(i)[1..] == [c] && [c][1..] == [];
        assert Feed(Scan(d, true, true), [c]) == Some(s);
      case Hex(digits) =>
        FeedHex(d, digits);
        assert ItemText(i)[1..] == [0x75] + digits && ([0x75] + digits)[1..] == digits;
        assert Feed(Scan(d, true, true), [0x75] + digits) == Feed(s, digits);
    }
  }

  lemma {:induction false} FeedHex(d: nat, t: Text)
    requires forall i :: 0 <= i < |t| ==> IsHexDigit(t[i])
    ensures Feed(Scan(d, true, false), t) == Some(Scan(d, true, false))
  {
    if |t| > 0 {
      assert IsHexDigit(t[0]);
      FeedHex(d, t[1..]);
    }
  }

  lemma {:induction false} FeedItems(d: nat, items: seq<Item>)
    requires WfItems(items)
    ensures Feed(Scan(d, true, false), ItemsText(items)) == Some(Scan(d, true, false))
  {
    if |items| > 0 {
      FeedItem(d, items[0]);
      FeedItems(d, items[1..]);
      FeedConcat(Scan(d, true, false), ItemText(items[0]), ItemsText(items[1..]));
    }
  }

  /** A string literal brings the automaton back to where it was. */
  lemma FeedString(d: nat, items: seq<Item>)
    requires WfItems(items)
    ensures Feed(Scan(d, false, false), StringText(items)) == Some(Scan(d, false, false))
  {
    var t := ItemsText(items);
    FeedItems(d, items);
    FeedConcat(Scan(d, true, false), t, [QUOTE]);
    assert StringText(items)[1..] == t + [QUOTE];
    assert [QUOTE][1..] == [];
  }

  /** Digits, signs, points and letters: what numbers and names are made of. */
  predicate Wordy(t: Text) {
    forall i :: 0 <= i < |t| ==> t[i] == 0x2B || t[i] == 0x2D || t[i] == 0x2E || 0x30 <= t[i] <= 0x39 || t[i] == 0x45 || 0x61 <= t[i] <= 0x7A
  }

  lemma LiteralIsWordy(l: Literal)
    requires WfLiteral(l)
    ensures Wordy(LiteralText(l)) && |LiteralText(l)| > 0
  {
    if l.Number? {
      assert Wordy(ExponentText(l.exponent)) by {
        if l.exponent.Some? {
          var x := l.exponent.value;
          assert Wordy([x.e] + x.sign);
        }
      }
      assert Wordy(if l.fraction == [] then [] else [0x2E] + l.fraction);
      assert Wordy((if l.minus then [0x2D] else []) + l.whole);
    }
  }

  lemma LiteralIsQuiet(d: nat, l: Literal)
    requires WfLiteral(l)
    ensures AllQuiet(d, LiteralText(l)) && |LiteralText(l)| > 0 && !IsSpace(LiteralText(l)[0])
  {
    LiteralIsWordy(l);
    hide LiteralText;
  }

  lemma FeedBlank(d: nat, t: Text)
    requires Blank(t)
    ensures Feed(Scan(d, false, false), t) == Some(Scan(d, false, false))
  {
    FeedQuiet(d, t);
  }

  /** Texts that bring the automaton back, one after the other, do so together. */
  lemma FeedTwo(d: nat, a: Text, b: Text)
    requires Feed(Scan(d, false, false), a) == Some(Scan(d, false, false)) == Feed(Scan(d, false, false), b)
    ensures Feed(Scan(d, false, false), a + b) == Some(Scan(d, false, false))
  {
    FeedConcat(Scan(d, false, false), a, b);
  }

  /** A nested text between brackets. */
  lemma FeedNested(d: nat, open: CodeUnit, inner: Text, close: CodeUnit)
    requires (open == LBRACE && close == RBRACE) || (open == LBRACKET && close == RBRACKET)
    requires Feed(Scan(d + 1, false, false), inner) == Some(Scan(d + 1, false, false))
    ensures Feed(Scan(d, false, false), [open] + inner + [close]) == Some(Scan(d, false, false))
  {
    var t := [open] + inner + [close];
    FeedConcat(Scan(d + 1, false, false), inner, [close]);
    assert t[1..] == inner + [close] && [close][1..] == [];
  }

  /** A whole value brings the automaton back, at every depth. */
  lemma {:induction false} FeedValue(d: nat, v: Value)
    requires WfValue(v)
    ensures Feed(Scan(d, false, false), ValueText(v)) == Some(Scan(d, false, false))
    decreases v, 0
  {
    match v {
      case String(items) => FeedString(d, items);
      case Simple(l) =>
        LiteralIsQuiet(d, l);
        FeedQuiet(d, LiteralText(l));
      case Array(empty, elements) =>
        if elements.NoElements? { FeedBlank(d + 1, empty); } else { FeedElements(d + 1, elements); }
        FeedNested(d, LBRACKET, if elements.NoElements? then empty else ElementsText(elements), RBRACKET);
      case Object(empty, members) =>
        if members.NoMembers? { FeedBlank(d + 1, empty); } else { FeedMembers(d + 1, members); }
        FeedNested(d, LBRACE, if members.NoMembers? then empty else MembersText(members), RBRACE);
    }
  }

  lemma {:induction false} FeedElements(d: nat, e: Elements)
    requires WfElements(e) && d > 0
    ensures Feed(Scan(d, false, false), ElementsText(e)) == Some(Scan(d, false, false))
    decreases e, 0
  {
    if e.Element? {
      FeedBlank(d, e.before);
      FeedValue(d, e.value);
      FeedBlank(d, e.after);
      FeedElements(d, e.rest);
      FeedQuiet(d, [COMMA]);
      FeedTwo(d, [COMMA], ElementsText(e.rest));
      FeedTwo(d, e.before, ValueText(e.value));
      FeedTwo(d, e.before + ValueText(e.value), e.after);
      FeedTwo(d, e.before + ValueText(e.value) + e.after, if e.rest.NoElements? then [] else [COMMA] + ElementsText(e.rest));
    }
  }

  /** Everything of a member up to the separator behind it. */
  function MemberText(m: Members): Text
    requires m.Member?
  {
    m.before + StringText(m.name) + m.afterName + [COLON] + m.beforeValue + ValueText(m.value) + m.after
  }

  lemma {:induction false} FeedMembers(d: nat, m: Members)
    requires WfMembers(m) && d > 0
    ensures Feed(Scan(d, false, false), MembersText(m)) == Some(Scan(d, false, false))
    decreases m, 0
  {
    if m.Member? {
      FeedBlank(d, m.before);
      FeedString(d, m.name);
      FeedBlank(d, m.afterName);
      FeedQuiet(d, [COLON]);
      FeedBlank(d, m.beforeValue);
      FeedValue(d, m.value);
      FeedBlank(d, m.after);
      FeedMembers(d, m.rest);
      FeedQuiet(d, [COMMA]);
      FeedTwo(d, [COMMA], MembersText(m.rest));
      FeedTwo(d, m.before, StringText(m.name));
      FeedTwo(d, m.before + StringText(m.name), m.afterName);
      FeedTwo(d, m.before + StringText(m.name) + m.afterName, [COLON]);
      FeedTwo(d, m.before + StringText(m.name) + m.afterName + [COLON], m.beforeValue);
      FeedTwo(d, m.before + StringText(m.name) + m.afterName + [COLON] + m.beforeValue, ValueText(m.value));
      FeedTwo(d, m.before + StringText(m.name) + m.afterName + [COLON] + m.beforeValue + ValueText(m.value), m.after);
      FeedTwo(d, MemberText(m), if m.rest.NoMembers? then [] else [COMMA] + MembersText(m.rest));
    }
  }

  // ---------------------------------------------------------------- texts inside the raw input

  predicate At(raw: Text, i: nat, t: Text) { i + |t| <= |raw| && raw[i..i + |t|] == t }

  lemma AtConcat(raw: Text, i: nat, a: Text, b: Text)
    requires At(raw, i, a + b)
    ensures At(raw, i, a) && At(raw, i + |a|, b)
  {
    var t := a + b;
    assert raw[i..i + |a|] == t[..|a|] == a;
    assert raw[i + |a|..i + |t|] == t[|a|..] == b;
  }

  /** What `At` says, where it is kept closed. */
  lemma AtSlice(raw: Text, i: nat, t: Text)
    requires At(raw, i, t)
    ensures i + |t| <= |raw| && raw[i..i + |t|] == t
  {
  }

  lemma AtSelf(raw: Text)
    ensures At(raw, 0, raw)
  {
    assert raw[0..|raw|] == raw;
  }

  /** A single character. */
  lemma AtChar(raw: Text, i: nat, c: CodeUnit)
    requires At(raw, i, [c])
    ensures IsAt(raw, i, c)
  {
    AtHead(raw, i, [c]);
  }

  /** The same text, bracketed from the left or from the right. */
  lemma Regroup(a: Text, b: Text, c: Text)
    ensures (a + b) + c == a + (b + c)
  {
  }

  lemma AtHead(raw: Text, i: nat, t: Text)
    requires At(raw, i, t) && |t| > 0
    ensures i < |raw| && raw[i] == t[0] && At(raw, i + 1, t[1..])
  {
    assert t == [t[0]] + t[1..];
    AtConcat(raw, i, [t[0]], t[1..]);
    assert raw[i..i + 1][0] == raw[i];
  }

  lemma {:induction false} SkipBlank(raw: Text, i: nat, t: Text)
    requires Blank(t) && At(raw, i, t) && i + |t| < |raw| && !IsSpace(raw[i + |t|])
    ensures SkipSpace(raw, i) == i + |t|
    decreases |t|
  {
    if |t| > 0 {
      AtHead(raw, i, t);
      SkipBlank(raw, i + 1, t[1..]);
    }
  }

  lemma {:induction false} ValueEndFeeds(raw: Text, i: nat, t: Text, s: Scan)
    requires At(raw, i, t) && Feed(s, t).Some?
    ensures ValueEnd(raw, i, s) == ValueEnd(raw, i + |t|, Feed(s, t).value)
    decreases |t|
  {
    if |t| > 0 {
      AtHead(raw, i, t);
      ValueEndFeeds(raw, i + 1, t[1..], Eat(s, t[0]).value);
    }
  }

  lemma StringEndItem(raw: Text, i: nat, item: Item)
    requires WfItem(item) && At(raw, i, ItemText(item))
    ensures StringEnd(raw, i, false) == StringEnd(raw, i + |ItemText(item)|, false)
  {
    var t := ItemText(item);
    AtHead(raw, i, t);
    match item {
      case Plain(c) =>
      case Escape(c) => AtHead(raw, i + 1, t[1..]);
      case Hex(digits) =>
        AtHead(raw, i + 1, t[1..]);
        assert t[1..][1..] == digits;
        StringEndHex(raw, i + 2, digits);
    }
  }

  lemma {:induction false} StringEndHex(raw: Text, i: nat, t: Text)
    requires At(raw, i, t) && forall k :: 0 <= k < |t| ==> IsHexDigit(t[k])
    ensures StringEnd(raw, i, false) == StringEnd(raw, i + |t|, false)
    decreases |t|
  {
    if |t| > 0 {
      AtHead(raw, i, t);
      assert IsHexDigit(t[0]);
      StringEndHex(raw, i + 1, t[1..]);
    }
  }

  /** A literal ends at its own closing quote, whatever escapes it holds. */
  lemma {:induction false} StringEndItems(raw: Text, i: nat, items: seq<Item>)
    requires WfItems(items) && At(raw, i, ItemsText(items) + [QUOTE])
    ensures StringEnd(raw, i, false) == Some(i + |ItemsText(items)| + 1)
    decreases |items|
  {
    hide At;
    if |items| == 0 {
      assert ItemsText(items) + [QUOTE] == [QUOTE];
      AtChar(raw, i, QUOTE);
    } else {
      hide StringEnd;
      var a, b := ItemText(items[0]), ItemsText(items[1..]) + [QUOTE];
      assert ItemsText(items) + [QUOTE] == a + b;
      AtConcat(raw, i, a, b);
      StringEndItem(raw, i, items[0]);
      StringEndItems(raw, i + |a|, items[1..]);
    }
  }

  /** Reading a literal back gives the string it denotes. */
  lemma {:induction false} UnescapeInverts(items: seq<Item>)
    requires WfItems(items)
    ensures Unescape(ItemsText(items)) == Some(StringValue(items))
  {
    if |items| > 0 {
      var t, rest := ItemsText(items), ItemsText(items[1..]);
      UnescapeInverts(items[1..]);
      match items[0] {
        case Plain(c) => assert t[1..] == rest;
        case Escape(c) => assert t[2..] == rest;
        case Hex(digits) => assert t[2..6] == digits && t[6..] == rest;
      }
    }
  }

  lemma FirstOfValue(v: Value)
    requires WfValue(v)
    ensures |ValueText(v)| > 0 && !IsSpace(ValueText(v)[0])
  {
    if v.Simple? {
      LiteralIsQuiet(0, v.literal);
    }
  }

  // ---------------------------------------------------------------- members

  lemma StringTail(name: seq<Item>)
    ensures StringText(name) == [QUOTE] + (ItemsText(name) + [QUOTE])
  {
    Regroup([QUOTE], ItemsText(name), [QUOTE]);
  }

  /** The name: found behind its blanks, read to its closing quote, decoded. */
  lemma ScanName(raw: Text, i: nat, before: Text, name: seq<Item>)
    requires Blank(before) && WfItems(name) && At(raw, i, before + StringText(name))
    ensures var start, end := i + |before|, i + |before| + |StringText(name)|;
            && SkipSpace(raw, i) == start && IsAt(raw, start, QUOTE)
            && StringEnd(raw, start + 1, false) == Some(end) && end - 1 <= |raw|
            && Unescape(raw[start + 1..end - 1]) == Some(StringValue(name))
  {
    hide At, Blank, SkipSpace, StringEnd, Unescape, ItemsText, StringValue, WfItems;
    var start, t := i + |before|, ItemsText(name);
    AtConcat(raw, i, before, StringText(name));
    StringTail(name);
    AtConcat(raw, start, [QUOTE], t + [QUOTE]);
    AtChar(raw, start, QUOTE);
    SkipBlank(raw, i, before);
    StringEndItems(raw, start + 1, name);
    AtConcat(raw, start + 1, t, [QUOTE]);
    AtSlice(raw, start + 1, t);
    UnescapeInverts(name);
  }

  /** Where the value starts. */
  lemma ValueStart(raw: Text, i: nat, before: Text, v: Value)
    requires Blank(before) && WfValue(v) && At(raw, i, before + ValueText(v))
    ensures SkipSpace(raw, i) == i + |before|
  {
    hide At, Blank, SkipSpace, WfValue, ValueText;
    AtConcat(raw, i, before, ValueText(v));
    FirstOfValue(v);
    AtHead(raw, i + |before|, ValueText(v));
    SkipBlank(raw, i, before);
  }

  /** Where it ends: the automaton runs to the separator behind it. */
  lemma ValueStop(raw: Text, start: nat, v: Value, after: Text, c: CodeUnit)
    requires WfValue(v) && Blank(after) && (c == COMMA || c == RBRACE) && At(raw, start, ValueText(v) + (after + [c]))
    ensures var end := start + |ValueText(v)| + |after|;
            start <= |raw| && IsAt(raw, end, c) && ValueEnd(raw, start, Scan(0, false, false)) == end
  {
    hide At, Blank, WfValue, ValueText, Feed;
    var mid, end, s := start + |ValueText(v)|, start + |ValueText(v)| + |after|, Scan(0, false, false);
    AtConcat(raw, start, ValueText(v), after + [c]);
    AtConcat(raw, mid, after, [c]);
    AtChar(raw, end, c);
    FeedValue(0, v);
    FeedBlank(0, after);
    ValueEndFeeds(raw, start, ValueText(v), s);
    ValueEndFeeds(raw, mid, after, s);
  }

  /** A value with the blanks around it, between the colon and the separator. */
  lemma ScanValue(raw: Text, i: nat, before: Text, v: Value, after: Text, c: CodeUnit)
    requires Blank(before) && WfValue(v) && Blank(after) && (c == COMMA || c == RBRACE)
    requires At(raw, i, before + (ValueText(v) + (after + [c])))
    ensures var start, end := i + |before|, i + |before| + |ValueText(v)| + |after|;
            && start <= |raw| && SkipSpace(raw, i) == start && IsAt(raw, end, c)
            && ValueEnd(raw, start, Scan(0, false, false)) == end && SkipSpace(raw, end) == end
  {
    hide At, Blank, WfValue, ValueText, ValueEnd;
    Regroup(before, ValueText(v), after + [c]);
    AtConcat(raw, i, before, ValueText(v) + (after + [c]));
    ValueStop(raw, i + |before|, v, after, c);
    AtConcat(raw, i, before + ValueText(v), after + [c]);
    ValueStart(raw, i, before, v);
  }

  /** A member and its separator, grouped the way the scanner meets them. */
  lemma MemberParts(m: Members, c: CodeUnit)
    requires m.Member?
    ensures MemberText(m) + [c] ==
            (m.before + StringText(m.name)) + (m.afterName + ([COLON] + (m.beforeValue + (ValueText(m.value) + (m.after + [c])))))
    ensures |MemberText(m)| == |m.before| + |StringText(m.name)| + |m.afterName| + 1 + |m.beforeValue| + |ValueText(m.value)| + |m.after|
  {
    hide StringText, ValueText;
  }

  /** The parts of a member at their places. */
  lemma MemberAt(raw: Text, i: nat, m: Members, c: CodeUnit)
    requires m.Member? && At(raw, i, MemberText(m) + [c])
    ensures var p := i + |m.before| + |StringText(m.name)|;
            var q := p + |m.afterName|;
            && i <= |raw| && At(raw, i, m.before + StringText(m.name)) && At(raw, p, m.afterName) && IsAt(raw, q, COLON)
            && At(raw, q + 1, m.beforeValue + (ValueText(m.value) + (m.after + [c])))
            && i + |MemberText(m)| == q + 1 + |m.beforeValue| + |ValueText(m.value)| + |m.after|
  {
    hide At, StringText, ValueText, MemberText;
    MemberParts(m, c);
    var name, value := m.before + StringText(m.name), m.beforeValue + (ValueText(m.value) + (m.after + [c]));
    var p := i + |name|;
    var q := p + |m.afterName|;
    AtConcat(raw, i, name, m.afterName + ([COLON] + value));
    AtConcat(raw, p, m.afterName, [COLON] + value);
    AtConcat(raw, q, [COLON], value);
    AtChar(raw, q, COLON);
  }

  /** Behind the name: blanks, a colon, and the value up to its separator. */
  lemma ScanRest(raw: Text, p: nat, m: Members, c: CodeUnit)
    requires WfMembers(m) && m.Member? && (c == COMMA || c == RBRACE)
    requires At(raw, p, m.afterName) && IsAt(raw, p + |m.afterName|, COLON)
    requires At(raw, p + |m.afterName| + 1, m.beforeValue + (ValueText(m.value) + (m.after + [c])))
    ensures var colon := p + |m.afterName|;
            var end := colon + 1 + |m.beforeValue| + |ValueText(m.value)| + |m.after|;
            && SkipSpace(raw, p) == colon && IsAt(raw, end, c)
            && SkipSpace(raw, ValueEnd(raw, SkipSpace(raw, colon + 1), Scan(0, false, false))) == end
  {
    hide At, Blank, SkipSpace, ValueEnd, WfItems, WfValue, ValueText;
    SkipBlank(raw, p, m.afterName);
    ScanValue(raw, p + |m.afterName| + 1, m.beforeValue, m.value, m.after, c);
  }

  lemma ScanOne(raw: Text, i: nat, m: Members, c: CodeUnit)
    requires WfMembers(m) && m.Member? && (c == COMMA || c == RBRACE) && At(raw, i, MemberText(m) + [c])
    ensures var end := i + |MemberText(m)|;
            i <= |raw| && ScanMember(raw, i) == Some((StringValue(m.name), end)) && IsAt(raw, end, c)
  {
    hide At, Blank, SkipSpace, StringEnd, ValueEnd, Unescape, StringValue, WfItems, WfValue, StringText, ValueText, MemberText, ScanMember;
    MemberAt(raw, i, m, c);
    ScanName(raw, i, m.before, m.name);
    var end := i + |m.before| + |StringText(m.name)|;
    ScanRest(raw, end, m, c);
    ScanMemberIs(raw, i, end, end + |m.afterName|);
  }

  lemma ScanMemberIs(raw: Text, i: nat, end: nat, colon: nat)
    requires i <= |raw| && IsAt(raw, SkipSpace(raw, i), QUOTE) && StringEnd(raw, SkipSpace(raw, i) + 1, false) == Some(end)
    requires SkipSpace(raw, end) == colon && IsAt(raw, colon, COLON) && Unescape(raw[SkipSpace(raw, i) + 1..end - 1]).Some?
    ensures ScanMember(raw, i) ==
            Some((Unescape(raw[SkipSpace(raw, i) + 1..end - 1]).value,
                  SkipSpace(raw, ValueEnd(raw, SkipSpace(raw, colon + 1), Scan(0, false, false)))))
  {
    hide SkipSpace, StringEnd, ValueEnd, Unescape;
  }

  lemma SkipTwice(raw: Text, i: nat)
    requires i <= |raw|
    ensures SkipSpace(raw, SkipSpace(raw, i)) == SkipSpace(raw, i)
    ensures ScanMember(raw, SkipSpace(raw, i)) == ScanMember(raw, i)
  {
    hide StringEnd, ValueEnd, Unescape;
  }

  /** The members text, seen from its first member. */
  function Separator(m: Members): CodeUnit
    requires m.Member?
  {
    if m.rest.NoMembers? then RBRACE else COMMA
  }

  lemma MembersParts(m: Members)
    requires m.Member?
    ensures MembersText(m) + [RBRACE] ==
            (MemberText(m) + [Separator(m)]) + if m.rest.NoMembers? then [] else MembersText(m.rest) + [RBRACE]
  {
    hide StringText, ValueText;
    assert MembersText(m) == MemberText(m) + if m.rest.NoMembers? then [] else [COMMA] + MembersText(m.rest);
  }

  /** All members up to the closing brace. */
  lemma {:induction false} ScanAll(raw: Text, i: nat, m: Members)
    requires WfMembers(m) && m.Member? && At(raw, i, MembersText(m) + [RBRACE])
    ensures i <= |raw| && ScanMembers(raw, i) == Some(Names(m)) && IsAt(raw, SkipSpace(raw, i), QUOTE)
    decreases m
  {
    hide At, ScanMember, SkipSpace, MembersText, MemberText, StringValue, WfValue, WfItems, Blank;
    MembersParts(m);
    var rest := if m.rest.NoMembers? then [] else MembersText(m.rest) + [RBRACE];
    AtConcat(raw, i, MemberText(m) + [Separator(m)], rest);
    ScanOne(raw, i, m, Separator(m));
    ScannedQuote(raw, i);
    if m.rest.NoMembers? {
      assert Names(m) == [StringValue(m.name)];
    } else {
      var next := i + |MemberText(m)| + 1;
      ScanAll(raw, next, m.rest);
      SkipAhead(raw, next);
    }
  }

  lemma ScannedQuote(raw: Text, i: nat)
    requires i <= |raw| && ScanMember(raw, i).Some?
    ensures IsAt(raw, SkipSpace(raw, i), QUOTE)
  {
  }

  // ---------------------------------------------------------------- main result

  /** The object with the blanks around it, grouped the way the scanner meets it. */
  lemma ObjectParts(before: Text, whole: Value, after: Text)
    requires whole.Object?
    ensures before + ValueText(whole) + after ==
            before + ([LBRACE] + ((if whole.members.NoMembers? then whole.empty else MembersText(whole.members)) + [RBRACE] + after))
  {
    hide MembersText;
  }

  function Inner(whole: Value): Text
    requires whole.Object?
  {
    if whole.members.NoMembers? then whole.empty else MembersText(whole.members)
  }

  lemma ObjectAt(raw: Text, before: Text, whole: Value, after: Text)
    requires whole.Object? && raw == before + ValueText(whole) + after
    ensures At(raw, 0, before) && IsAt(raw, |before|, LBRACE) && At(raw, |before| + 1, Inner(whole) + [RBRACE])
  {
    hide At, ValueText, MembersText;
    AtSelf(raw);
    ObjectParts(before, whole, after);
    var rest := Inner(whole) + [RBRACE] + after;
    AtConcat(raw, 0, before, [LBRACE] + rest);
    AtConcat(raw, |before|, [LBRACE], rest);
    AtChar(raw, |before|, LBRACE);
    AtConcat(raw, |before| + 1, Inner(whole) + [RBRACE], after);
  }

  /**
   * On every well-formed object text the scanner returns the decoded member names, in order and with
   * duplicates, whatever nesting, escapes and brackets its names and values hold.
   */
  lemma ScannerListsNames(before: Text, whole: Value, after: Text)
    requires Blank(before) && WfValue(whole) && whole.Object? && Blank(after)
    ensures ScanKeys(before + ValueText(whole) + after) == Some(Names(whole.members))
  {
    var raw, m, i := before + ValueText(whole) + after, whole.members, |before|;
    ObjectAt(raw, before, whole, after);
    hide At, Blank, SkipSpace, ScanMembers, ValueText, MembersText, WfMembers;
    SkipBlank(raw, 0, before);
    if m.NoMembers? {
      AtConcat(raw, i + 1, whole.empty, [RBRACE]);
      AtChar(raw, i + 1 + |whole.empty|, RBRACE);
      SkipBlank(raw, i + 1, whole.empty);
    } else {
      ScanAll(raw, i + 1, m);
      SkipAhead(raw, i + 1);
    }
  }

  lemma SkipAhead(raw: Text, i: nat)
    requires i <= |raw|
    ensures ScanMembers(raw, SkipSpace(raw, i)) == ScanMembers(raw, i)
  {
    SkipTwice(raw, i);
    hide ScanMember, SkipSpace, ScanBehind;
  }

  /** A text has only one list of member names, however it is derived. */
  lemma NamesAreUnambiguous(a: Text, x: Value, b: Text, c: Text, y: Value, d: Text)
    requires Blank(a) && Blank(b) && Blank(c) && Blank(d) && WfValue(x) && WfValue(y) && x.Object? && y.Object?
    requires a + ValueText(x) + b == c + ValueText(y) + d
    ensures Names(x.members) == Names(y.members)
  {
    ScannerListsNames(a, x, b);
    ScannerListsNames(c, y, d);
  }
}
