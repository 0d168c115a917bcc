/**
 * What the key scanner accepts, on every text, well-formed or not: JSON strings for names, and for values
 * anything whose strings are closed and whose brackets balance in number.
 */
module JsonAccept {
  import opened Prelude
  import opened JsonText
  import opened JsonKeys
  import opened JsonScan

  /** The white space of ECMAScript's regular expressions. */
  const WHITE: set<CodeUnit> := {
    0x09, 0x0A, 0x0B, 0x0C, 0x0D, 0x20, 0xA0, 0x1680, 0x2000, 0x2001, 0x2002, 0x2003, 0x2004, 0x2005, 0x2006, 0x2007,
    0x2008, 0x2009, 0x200A, 0x2028, 0x2029, 0x202F, 0x205F, 0x3000, 0xFEFF}

  /** White space from `i` up to `j`, and no further. */
  predicate Gap(raw: Text, i: nat, j: nat) {
    && i <= j <= |raw|
    && (forall k :: i <= k < j ==> raw[k] in WHITE)
    && (j < |raw| ==> raw[j] !in WHITE)
  }

  lemma SpaceIsWhite(c: CodeUnit)
    ensures IsSpace(c) <==> c in WHITE
  {
  }

  lemma {:induction false} SkipIsGap(raw: Text, i: nat, j: nat)
    requires i <= |raw|
    ensures SkipSpace(raw, i) == j <==> Gap(raw, i, j)
    decreases |raw| - i
  {
    if i < |raw| {
      SpaceIsWhite(raw[i]);
      if IsSpace(raw[i]) {
        SkipIsGap(raw, i + 1, j);
        assert Gap(raw, i, j) <==> Gap(raw, i + 1, j);
      }
    }
  }

  // ---------------------------------------------------------------- names

  /** A JSON string from `q` up to `e` that denotes `name`. */
  ghost predicate Quoted(raw: Text, q: nat, e: nat, name: Text) {
    exists items: seq<Item> ::
      WfItems(items) && At(raw, q, StringText(items)) && e == q + |StringText(items)| && name == StringValue(items)
  }

  /** Whatever decodes is the text of some string items. */
  lemma {:induction false} DecodedIsItems(t: Text) returns (items: seq<Item>)
    requires Unescape(t).Some?
    ensures WfItems(items) && ItemsText(items) == t && Some(StringValue(items)) == Unescape(t)
    decreases |t|
  {
    if |t| == 0 {
      items := [];
    } else {
      var n := if t[0] != BACKSLASH then 1 else if |t| >= 6 && t[1] == 0x75 && IsHex(t[2..6]) then 6 else 2;
      var first := if n == 1 then Plain(t[0]) else if n == 6 then Hex(t[2..6]) else Escape(t[1]);
      var rest := DecodedIsItems(t[n..]);
      items := [first] + rest;
      assert WfItem(first) && ItemText(first) == t[..n];
      assert Unescape(t) == Prepend([ItemValue(first)], Unescape(t[n..]));
      hide Unescape, IsHex, HexValue, EscapeValue, ItemText, ItemValue, WfItem;
      PrependItem(first, rest);
      assert t == t[..n] + t[n..];
    }
  }

  lemma PrependItem(first: Item, rest: seq<Item>)
    requires WfItem(first) && WfItems(rest)
    ensures WfItems([first] + rest) && ItemsText([first] + rest) == ItemText(first) + ItemsText(rest)
    ensures StringValue([first] + rest) == [ItemValue(first)] + StringValue(rest)
  {
    hide WfItem, ItemText, ItemValue;
    assert ([first] + rest)[1..] == rest;
  }

  lemma {:induction false} EndsAtQuote(raw: Text, i: nat, escaped: bool)
    requires StringEnd(raw, i, escaped).Some?
    ensures raw[StringEnd(raw, i, escaped).value - 1] == QUOTE
    decreases |raw| - i
  {
    if escaped { EndsAtQuote(raw, i + 1, false); }
    else if raw[i] == BACKSLASH { EndsAtQuote(raw, i + 1, true); }
    else if raw[i] != QUOTE { EndsAtQuote(raw, i + 1, false); }
  }

  predicate ReadsName(raw: Text, q: nat, e: nat, name: Text) {
    && IsAt(raw, q, QUOTE) && StringEnd(raw, q + 1, false) == Some(e)
    && q + 1 <= e - 1 <= |raw| && Unescape(raw[q + 1..e - 1]) == Some(name)
  }

  lemma TextIsRead(raw: Text, q: nat, items: seq<Item>)
    requires WfItems(items) && At(raw, q, StringText(items))
    ensures ReadsName(raw, q, q + |StringText(items)|, StringValue(items))
  {
    hide WfItems, At, Unescape, StringEnd, StringValue, ItemsText, SkipSpace;
    assert [] + StringText(items) == StringText(items);
    ScanName(raw, q, [], items);
    assert |StringText(items)| >= 2;
  }

  lemma QuotedIsRead(raw: Text, q: nat, e: nat, name: Text)
    ensures Quoted(raw, q, e, name) <==> ReadsName(raw, q, e, name)
  {
    hide WfItems, At, StringText, StringValue, ReadsName;
    if Quoted(raw, q, e, name) {
      var items: seq<Item> :|
        WfItems(items) && At(raw, q, StringText(items)) && e == q + |StringText(items)| && name == StringValue(items);
      TextIsRead(raw, q, items);
    }
    if ReadsName(raw, q, e, name) {
      ReadIsQuoted(raw, q, e, name);
    }
  }

  lemma Bracketed(raw: Text, q: nat, e: nat)
    requires q + 1 < e <= |raw|
    ensures raw[q..e] == [raw[q]] + raw[q + 1..e - 1] + [raw[e - 1]]
  {
  }

  lemma ReadIsQuoted(raw: Text, q: nat, e: nat, name: Text)
    requires ReadsName(raw, q, e, name)
    ensures Quoted(raw, q, e, name)
  {
    hide Unescape, StringEnd, StringValue, WfItems, ItemsText;
    var items := DecodedIsItems(raw[q + 1..e - 1]);
    EndsAtQuote(raw, q + 1, false);
    ItemsAreQuoted(raw, q, e, items);
  }

  lemma ItemsAreQuoted(raw: Text, q: nat, e: nat, items: seq<Item>)
    requires q + 1 < e <= |raw| && raw[q] == raw[e - 1] == QUOTE && ItemsText(items) == raw[q + 1..e - 1] && WfItems(items)
    ensures Quoted(raw, q, e, StringValue(items))
  {
    hide ItemsText, StringValue, WfItems;
    Bracketed(raw, q, e);
    assert StringText(items) == raw[q..e];
    assert At(raw, q, StringText(items));
  }

  // ---------------------------------------------------------------- values

  /** From `v` up to `z` every string is closed, and every bracket that closes has been opened. */
  predicate Level(raw: Text, v: nat, z: nat) {
    v <= z <= |raw| && Feed(Scan(0, false, false), raw[v..z]) in {Some(Scan(0, false, false)), Some(Scan(0, false, true))}
  }

  lemma {:induction false} EndIsFed(raw: Text, i: nat, s: Scan)
    requires i <= |raw|
    ensures var z := ValueEnd(raw, i, s);
            var fed := Feed(s, raw[i..z]);
            fed.Some? && (z < |raw| ==> Eat(fed.value, raw[z]).None?)
    decreases |raw| - i
  {
    if i < |raw| && Eat(s, raw[i]).Some? {
      var z := ValueEnd(raw, i, s);
      EndIsFed(raw, i + 1, Eat(s, raw[i]).value);
      assert raw[i..z][0] == raw[i] && raw[i..z][1..] == raw[i + 1..z];
    }
  }

  lemma LevelIsEnd(raw: Text, v: nat, z: nat, c: CodeUnit)
    requires v <= |raw| && (c == COMMA || c == RBRACE)
    ensures Level(raw, v, z) && IsAt(raw, z, c) <==> ValueEnd(raw, v, Scan(0, false, false)) == z && IsAt(raw, z, c)
  {
    EndIsFed(raw, v, Scan(0, false, false));
    if Level(raw, v, z) && IsAt(raw, z, c) {
      ValueEndFeeds(raw, v, raw[v..z], Scan(0, false, false));
    }
  }

  // ---------------------------------------------------------------- members

  /** One member from `i`, its separator `c` at `z`: name, colon, value, with white space anywhere between. */
  ghost predicate MemberOf(raw: Text, i: nat, name: Text, z: nat, c: CodeUnit) {
    && IsAt(raw, z, c)
    && exists q: nat, e: nat, colon: nat, v: nat ::
         && Gap(raw, i, q) && Quoted(raw, q, e, name)
         && Gap(raw, e, colon) && IsAt(raw, colon, COLON)
         && Gap(raw, colon + 1, v) && Level(raw, v, z)
  }

  /** What stands behind the first member. */
  function Behind(names: seq<Text>): CodeUnit { if |names| == 1 then RBRACE else COMMA }

  /** The named members from `i` to the closing brace, separated by commas. */
  ghost predicate MembersOf(raw: Text, i: nat, names: seq<Text>)
    decreases |names|
  {
    && |names| > 0
    && exists z: nat ::
         && MemberOf(raw, i, names[0], z, Behind(names))
         && (|names| > 1 ==> MembersOf(raw, z + 1, names[1..]))
  }

  /** The text starts with an object, loosely written, of these names; what follows the brace does not matter. */
  ghost predicate ObjectOf(raw: Text, names: seq<Text>) {
    exists i: nat, j: nat ::
      && Gap(raw, 0, i) && IsAt(raw, i, LBRACE) && Gap(raw, i + 1, j)
      && if IsAt(raw, j, RBRACE) then names == [] else MembersOf(raw, j, names)
  }

  lemma ReadIsMember(raw: Text, i: nat, name: Text, z: nat, c: CodeUnit)
    requires i <= |raw| && (c == COMMA || c == RBRACE) && ScanMember(raw, i) == Some((name, z)) && IsAt(raw, z, c)
    ensures MemberOf(raw, i, name, z, c)
  {
    hide SkipSpace, StringEnd, ValueEnd, Unescape, Gap, Quoted, Level;
    var q := SkipSpace(raw, i);
    var e := StringEnd(raw, q + 1, false).value;
    var colon := SkipSpace(raw, e);
    var v := SkipSpace(raw, colon + 1);
    var end := ValueEnd(raw, v, Scan(0, false, false));
    SkipIsGap(raw, i, q);
    QuotedIsRead(raw, q, e, name);
    SkipIsGap(raw, e, colon);
    SkipIsGap(raw, colon + 1, v);
    EndStays(raw, v);
    LevelIsEnd(raw, v, z, c);
  }

  /** Behind the value there is no white space left to skip. */
  lemma EndStays(raw: Text, v: nat)
    requires v <= |raw|
    ensures var z := ValueEnd(raw, v, Scan(0, false, false)); SkipSpace(raw, z) == z
  {
    hide ValueEnd, Feed;
    EndIsFed(raw, v, Scan(0, false, false));
  }

  lemma MemberIsRead(raw: Text, i: nat, name: Text, z: nat, c: CodeUnit)
    requires (c == COMMA || c == RBRACE) && MemberOf(raw, i, name, z, c)
    ensures i <= |raw| && ScanMember(raw, i) == Some((name, z))
  {
    hide SkipSpace, StringEnd, ValueEnd, Unescape, Quoted, Level, ScanMember;
    var q: nat, e: nat, colon: nat, v: nat :|
      && Gap(raw, i, q) && Quoted(raw, q, e, name)
      && Gap(raw, e, colon) && IsAt(raw, colon, COLON)
      && Gap(raw, colon + 1, v) && Level(raw, v, z);
    SkipIsGap(raw, i, q);
    QuotedIsRead(raw, q, e, name);
    SkipIsGap(raw, e, colon);
    SkipIsGap(raw, colon + 1, v);
    LevelIsEnd(raw, v, z, c);
    EndStays(raw, v);
    ScanMemberIs(raw, i, e, colon);
  }

  lemma {:induction false} MembersAreRead(raw: Text, i: nat, names: seq<Text>)
    requires i <= |raw|
    ensures MembersOf(raw, i, names) ==> ScanMembers(raw, i) == Some(names)
    decreases |names|
  {
    hide ScanMember, SkipSpace, MemberOf;
    if !MembersOf(raw, i, names) { return; }
    var c := Behind(names);
    var z: nat :| MemberOf(raw, i, names[0], z, c) && (|names| > 1 ==> MembersOf(raw, z + 1, names[1..]));
    MemberIsRead(raw, i, names[0], z, c);
    SeparatorAt(raw, i, names[0], z, c);
    if |names| == 1 {
      assert names == [names[0]];
    } else {
      MembersAreRead(raw, z + 1, names[1..]);
      SkipAhead(raw, z + 1);
      assert names == [names[0]] + names[1..];
    }
  }

  lemma SeparatorAt(raw: Text, i: nat, name: Text, z: nat, c: CodeUnit)
    requires MemberOf(raw, i, name, z, c)
    ensures IsAt(raw, z, c)
  {
  }

  lemma {:induction false} ReadAreMembers(raw: Text, i: nat, names: seq<Text>)
    requires i <= |raw| && ScanMembers(raw, i) == Some(names)
    ensures MembersOf(raw, i, names)
    decreases |raw| - i
  {
    hide ScanMember, SkipSpace, MemberOf;
    var (name, z) := ScanMember(raw, i).value;
    if IsAt(raw, z, RBRACE) {
      ReadIsMember(raw, i, name, z, RBRACE);
      assert names == [name];
      assert MemberOf(raw, i, names[0], z, Behind(names));
    } else {
      SkipAhead(raw, z + 1);
      var rest := ScanMembers(raw, z + 1).value;
      ReadAreMembers(raw, z + 1, rest);
      ReadIsMember(raw, i, name, z, COMMA);
      assert names == [name] + rest && names[1..] == rest && |rest| > 0;
      assert MemberOf(raw, i, names[0], z, Behind(names));
    }
  }

  /** The scanner accepts exactly the texts that start with a loosely written object, and lists exactly its names. */
  lemma AcceptsExactly(raw: Text, names: seq<Text>)
    ensures ScanKeys(raw) == Some(names) <==> ObjectOf(raw, names)
  {
    hide SkipSpace, Gap, MembersOf, ScanMembers;
    if ScanKeys(raw) == Some(names) {
      var i := SkipSpace(raw, 0);
      var j := SkipSpace(raw, i + 1);
      SkipIsGap(raw, 0, i);
      SkipIsGap(raw, i + 1, j);
      if !IsAt(raw, j, RBRACE) { ReadAreMembers(raw, j, names); }
    }
    if ObjectOf(raw, names) {
      var i: nat, j: nat :|
        && Gap(raw, 0, i) && IsAt(raw, i, LBRACE) && Gap(raw, i + 1, j)
        && if IsAt(raw, j, RBRACE) then names == [] else MembersOf(raw, j, names);
      SkipIsGap(raw, 0, i);
      SkipIsGap(raw, i + 1, j);
      if !IsAt(raw, j, RBRACE) { MembersAreRead(raw, j, names); }
    }
  }

  /** A JSON text that is not an object is refused. */
  lemma OthersAreRefused(before: Text, whole: Value, after: Text)
    requires Blank(before) && WfValue(whole) && !whole.Object?
    ensures ScanKeys(before + ValueText(whole) + after) == None
  {
    var raw := before + ValueText(whole) + after;
    FirstOfValue(whole);
    AtSelf(raw);
    AtConcat(raw, 0, before + ValueText(whole), after);
    AtConcat(raw, 0, before, ValueText(whole));
    AtHead(raw, |before|, ValueText(whole));
    SkipBlank(raw, 0, before);
    assert ValueText(whole)[0] != LBRACE by { if whole.Simple? { LiteralIsQuiet(0, whole.literal); } }
    hide SkipSpace, ValueText;
  }
}
