/** The text a decoder records for a node is the input that node was read from, exactly when nothing was skipped,
    rewritten or made up; so the info dictionary of a torrent file is kept byte for byte. */
module BencodeRawText {
  import opened Bencode

  /** The text of the node, and of every node inside it, is a stretch of the input, each inside its parent's. */
  ghost predicate Captured(node: Bendata, data: string, a: nat, b: nat)
    decreases node, 0
  {
    && a <= b <= |data|
    && node.code == data[a..b]
    && match node {
      case Num(_, _) => true
      case Str(_, _) => true
      case Lis(items, _) => forall x :: x in items ==> CapturedWithin(x, data, a, b)
      case Dic(entries, _) => forall k :: k in entries ==> EntryWithin(k, entries[k], data, a, b)
    }
  }

  ghost predicate CapturedWithin(node: Bendata, data: string, a: nat, b: nat)
    decreases node, 1
  {
    exists x: nat, y: nat :: a <= x <= y <= b && x <= |data|
      && ParseAny(data, x) == Parsed(node, y, true) && Captured(node, data, x, y)
  }

  /** A dictionary's value is read right behind its key. */
  ghost predicate EntryWithin(key: string, node: Bendata, data: string, a: nat, b: nat)
    decreases node, 1
  {
    exists w: nat, x: nat, y: nat :: a <= w && KeyAt(key, data, w, x) && x <= y <= b
      && ParseAny(data, x) == Parsed(node, y, true) && Captured(node, data, x, y)
  }

  ghost predicate KeyAt(key: string, data: string, w: nat, x: nat) {
    w <= x <= |data| && ParseString(data, w) == Parsed(Str(key, data[w..x]), x, true)
  }

  // ---------------------------------------------------------------------------
  // Numbers: the canonical text of a value is the shortest one that reads as it
  // ---------------------------------------------------------------------------

  lemma {:induction false} DigitsShortest(d: string)
    requires d != [] && forall k :: 0 <= k < |d| ==> IsDigit(d[k])
    ensures |Digits(Decimal(d))| <= |d|
    ensures |Digits(Decimal(d))| == |d| ==> Digits(Decimal(d)) == d
  {
    var front, last := d[..|d| - 1], d[|d| - 1];
    assert d == front + [last];
    if Decimal(front) > 0 {
      DigitsShortest(front);
      assert Decimal(d) / 10 == Decimal(front) && Decimal(d) % 10 == DigitValue(last);
    }
  }

  lemma MagnitudeShortest(s: string, negative: bool)
    requires Magnitude(s, negative).Some?
    ensures var v := Magnitude(s, negative).value;
            var n := if v < 0 then -v else v;
            (v < 0 ==> negative) && (v > 0 ==> !negative)
            && |Digits(n)| <= |s| && (|Digits(n)| == |s| ==> Digits(n) == s)
  {
    DigitsShortest(s[..DigitCount(s)]);
  }

  lemma CanonicalIsShortest(text: string)
    requires Stoi(text).Some?
    ensures |ToString(Stoi(text).value)| <= |text|
    ensures |ToString(Stoi(text).value)| == |text| ==> ToString(Stoi(text).value) == text
  {
    var t := text[SpaceCount(text)..];
    if t[0] == '-' {
      MagnitudeShortest(t[1..], true);
      assert t == ['-'] + t[1..];
    } else if t[0] == '+' {
      MagnitudeShortest(t[1..], false);
    } else {
      MagnitudeShortest(t, false);
    }
  }

  // ---------------------------------------------------------------------------
  // Scalars
  // ---------------------------------------------------------------------------

  lemma StringText(data: string, pos: nat)
    requires pos <= |data| && ParseString(data, pos).Parsed?
    ensures var r := ParseString(data, pos);
            && (r.exact ==> r.node.code == data[pos..r.rest])
            && (!r.exact ==> |r.node.code| > r.rest - pos && r.rest == |data|)
  {
    var j := Find(data, pos, ':');
    if ParseString(data, pos).exact {
      var r := ParseString(data, pos);
      assert data[pos..r.rest] == data[pos..j] + [data[j]] + data[j + 1..r.rest];
    }
  }

  lemma Framed(data: string, pos: nat, j: nat)
    requires pos < j < |data| && data[pos] == 'i' && data[j] == 'e'
    ensures data[pos..j + 1] == "i" + data[pos + 1..j] + "e"
  {
  }

  lemma NoLastE(code: string, data: string, pos: nat)
    requires pos + 1 < |data| && code != [] && code[|code| - 1] == 'e' && data[|data| - 1] != 'e'
    ensures code != data[pos..]
  {
    assert data[pos..][|data| - pos - 1] == data[|data| - 1];
  }

  lemma IntegerText(data: string, pos: nat)
    requires pos < |data| && data[pos] == 'i' && ParseInteger(data, pos).Parsed?
    ensures var r := ParseInteger(data, pos);
            && (r.exact ==> r.node.code == data[pos..r.rest])
            && (!r.exact && r.rest < |data| ==> |r.node.code| < r.rest - pos)
            && (!r.exact ==> r.node.code != data[pos..r.rest])
  {
    var r := ParseInteger(data, pos);
    var j := Find(data, pos + 1, 'e');
    var text := data[pos + 1..j];
    CanonicalIsShortest(text);
    if j < |data| {
      Framed(data, pos, j);
    } else {
      NoLastE(r.node.code, data, pos);
    }
  }

  // ---------------------------------------------------------------------------
  // What a container can hold
  // ---------------------------------------------------------------------------

  lemma NothingAtTheEnd(data: string)
    ensures ParseString(data, |data|) == Failed && ParseAny(data, |data|) == Failed
  {
  }

  lemma ItemsNeedTheEnd(data: string, items: seq<Bendata>, code: string, exact: bool)
    ensures ParseItems(data, |data|, items, code, exact) == Failed
  {
    NothingAtTheEnd(data);
  }

  lemma EntriesNeedTheEnd(data: string, entries: map<string, Bendata>, code: string, exact: bool)
    ensures ParseEntries(data, |data|, entries, code, exact) == Failed
  {
    NothingAtTheEnd(data);
  }

  // ---------------------------------------------------------------------------
  // Lengths: a parse that was not exact recorded fewer characters than it read
  // ---------------------------------------------------------------------------

  /** Recorded and read lengths agree if the parse was exact; if not, less was recorded. */
  ghost predicate Measured(recorded: nat, read: int, exact: bool) {
    if exact then recorded == read else recorded < read
  }

  lemma {:induction false} AnyLength(data: string, pos: nat)
    requires pos <= |data| && ParseAny(data, pos).Parsed? && ParseAny(data, pos).rest < |data|
    ensures Measured(|ParseAny(data, pos).node.code|, ParseAny(data, pos).rest - pos, ParseAny(data, pos).exact)
    decreases |data| - pos, 2, 0
  {
    TokenLength(data, SkipSpaces(data, pos));
  }

  lemma {:induction false} TokenLength(data: string, p: nat)
    requires p <= |data| && ParseToken(data, p).Parsed? && ParseToken(data, p).rest < |data|
    ensures Measured(|ParseToken(data, p).node.code|, ParseToken(data, p).rest - p, ParseToken(data, p).exact)
    decreases |data| - p, 1, 0
  {
    if At(data, p, 'i') {
      IntegerText(data, p);
    } else if At(data, p, 'd') || At(data, p, 'l') {
      ContainerLength(data, p);
    } else {
      StringText(data, p);
    }
  }

  lemma {:induction false} ContainerLength(data: string, p: nat)
    requires p <= |data| && (At(data, p, 'd') || At(data, p, 'l')) && ParseToken(data, p).Parsed?
    ensures Measured(|ParseToken(data, p).node.code|, ParseToken(data, p).rest - p, ParseToken(data, p).exact)
    decreases |data| - p, 0, 0
  {
    if At(data, p, 'd') {
      EntriesLength(data, p + 1, map[], "d", true);
    } else {
      ItemsLength(data, p + 1, [], "l", true);
    }
  }

  /** From any iteration of a loop: what it adds to the text is measured against what it reads from there. */
  ghost predicate MeasuredFrom(code: string, pos: nat, exact: bool, r: Parse) {
    && r.Parsed?
    && (r.exact ==> exact && |r.node.code| - |code| == r.rest - pos)
    && (!r.exact && exact ==> |r.node.code| - |code| < r.rest - pos)
    && |r.node.code| - |code| <= r.rest - pos
  }

  lemma {:induction false} ItemsLength(data: string, pos: nat, items: seq<Bendata>, code: string, exact: bool)
    requires pos <= |data| && ParseItems(data, pos, items, code, exact).Parsed?
    ensures MeasuredFrom(code, pos, exact, ParseItems(data, pos, items, code, exact))
    decreases |data| - pos, 3, 1
  {
    var p := SkipSpaces(data, pos);
    if !At(data, p, 'e') {
      var x := ParseAny(data, p);
      var more, text, still := items + [x.node], code + x.node.code, exact && x.exact && p == pos;
      ItemsNeedTheEnd(data, more, text, still);
      AnyLength(data, p);
      ItemsLength(data, x.rest, more, text, still);
    }
  }

  lemma {:induction false} EntriesLength(data: string, pos: nat, entries: map<string, Bendata>, code: string,
                                         exact: bool)
    requires pos <= |data| && ParseEntries(data, pos, entries, code, exact).Parsed?
    ensures MeasuredFrom(code, pos, exact, ParseEntries(data, pos, entries, code, exact))
    decreases |data| - pos, 3, 1
  {
    var p := SkipSpaces(data, pos);
    if !At(data, p, 'e') {
      var k := ParseString(data, p);
      NothingAtTheEnd(data);
      StringText(data, p);
      var x := ParseAny(data, k.rest);
      var more, text := entries[k.node.text := x.node], code + (k.node.code + x.node.code);
      var still := exact && k.exact && x.exact && p == pos;
      EntriesNeedTheEnd(data, more, text, still);
      AnyLength(data, k.rest);
      EntriesLength(data, x.rest, more, text, still);
    }
  }

  // ---------------------------------------------------------------------------
  // Contents: an exact parse recorded what it read, at every level
  // ---------------------------------------------------------------------------

  lemma {:induction false} AnyCaptured(data: string, pos: nat)
    requires pos <= |data| && ParseAny(data, pos).Parsed? && ParseAny(data, pos).exact
    ensures Captured(ParseAny(data, pos).node, data, pos, ParseAny(data, pos).rest)
    decreases |data| - pos, 2, 0
  {
    var p := SkipSpaces(data, pos);
    if At(data, p, 'i') {
      IntegerText(data, p);
    } else if At(data, p, 'd') {
      EntriesCaptured(data, p + 1, map[], "d", true, p);
    } else if At(data, p, 'l') {
      ItemsCaptured(data, p + 1, [], "l", true, p);
    } else {
      StringText(data, p);
    }
  }

  ghost predicate AllWithin(items: seq<Bendata>, data: string, a: nat, b: nat) {
    forall x :: x in items ==> CapturedWithin(x, data, a, b)
  }

  lemma Wider(node: Bendata, data: string, a: nat, b: nat, c: nat)
    requires CapturedWithin(node, data, a, b) && b <= c
    ensures CapturedWithin(node, data, a, c)
  {
  }

  lemma Joined(data: string, a: nat, b: nat, c: nat, d: nat)
    requires a <= b <= c <= d <= |data|
    ensures data[a..b] + data[b..c] == data[a..c]
    ensures data[a..b] + (data[b..c] + data[c..d]) == data[a..d]
  {
  }

  lemma OneMore(items: seq<Bendata>, node: Bendata, data: string, a: nat, b: nat, c: nat)
    requires AllWithin(items, data, a, b) && a <= b <= c && Captured(node, data, b, c)
    requires ParseAny(data, b) == Parsed(node, c, true)
    ensures AllWithin(items + [node], data, a, c)
  {
    forall z | z in items + [node]
      ensures CapturedWithin(z, data, a, c)
    {
      if z in items {
        Wider(z, data, a, b, c);
      }
    }
  }

  lemma ItemsEnd(data: string, pos: nat, items: seq<Bendata>, code: string, first: nat)
    requires first <= pos < |data| && code == data[first..pos] && AllWithin(items, data, first, pos) && data[pos] == 'e'
    ensures Captured(Lis(items, code + "e"), data, first, pos + 1)
  {
    assert data[first..pos + 1] == data[first..pos] + [data[pos]];
    forall x | x in items
      ensures CapturedWithin(x, data, first, pos + 1)
    {
      Wider(x, data, first, pos, pos + 1);
    }
  }

  /** One iteration of the list loop. */
  lemma {:induction false} ItemCaptured(data: string, pos: nat, items: seq<Bendata>, code: string, first: nat, x: Parse)
    requires first <= pos <= |data| && code == data[first..pos] && AllWithin(items, data, first, pos)
    requires ParseAny(data, pos) == x && x.Parsed? && x.exact
    ensures code + x.node.code == data[first..x.rest]
    ensures AllWithin(items + [x.node], data, first, x.rest)
    decreases |data| - pos, 3, 0
  {
    AnyCaptured(data, pos);
    Joined(data, first, pos, x.rest, x.rest);
    OneMore(items, x.node, data, first, pos, x.rest);
  }

  /** The list loop, for a list that started at `first`. */
  lemma {:induction false} ItemsCaptured(data: string, pos: nat, items: seq<Bendata>, code: string, exact: bool,
                                         first: nat)
    requires first <= pos <= |data| && code == data[first..pos] && AllWithin(items, data, first, pos)
    requires ParseItems(data, pos, items, code, exact).Parsed? && ParseItems(data, pos, items, code, exact).exact
    ensures var r := ParseItems(data, pos, items, code, exact); Captured(r.node, data, first, r.rest)
    decreases |data| - pos, 3, 1
  {
    ItemsLength(data, pos, items, code, exact);
    var p := SkipSpaces(data, pos);
    if At(data, p, 'e') {
      ItemsEnd(data, pos, items, code, first);
    } else {
      var x := ParseAny(data, p);
      var more, text, still := items + [x.node], code + x.node.code, exact && x.exact && p == pos;
      ItemsLength(data, x.rest, more, text, still);
      ItemCaptured(data, pos, items, code, first, x);
      ItemsCaptured(data, x.rest, more, text, still, first);
    }
  }

  ghost predicate ValuesWithin(entries: map<string, Bendata>, data: string, a: nat, b: nat) {
    forall k :: k in entries ==> EntryWithin(k, entries[k], data, a, b)
  }

  lemma OneEntryMore(entries: map<string, Bendata>, key: string, node: Bendata, data: string, a: nat, b: nat, x: nat,
                     y: nat)
    requires ValuesWithin(entries, data, a, b) && a <= b <= x <= y && Captured(node, data, x, y)
    requires KeyAt(key, data, b, x) && ParseAny(data, x) == Parsed(node, y, true)
    ensures ValuesWithin(entries[key := node], data, a, y)
  {
    var more := entries[key := node];
    forall k | k in more
      ensures EntryWithin(k, more[k], data, a, y)
    {
      if k != key {
        EntryWider(k, entries[k], data, a, b, y);
      }
    }
  }

  lemma EntryWider(key: string, node: Bendata, data: string, a: nat, b: nat, c: nat)
    requires EntryWithin(key, node, data, a, b) && b <= c
    ensures EntryWithin(key, node, data, a, c)
  {
  }

  lemma EntriesEnd(data: string, pos: nat, entries: map<string, Bendata>, code: string, first: nat)
    requires first <= pos < |data| && code == data[first..pos] && ValuesWithin(entries, data, first, pos)
    requires data[pos] == 'e'
    ensures Captured(Dic(entries, code + "e"), data, first, pos + 1)
  {
    assert data[first..pos + 1] == data[first..pos] + [data[pos]];
    forall k | k in entries
      ensures EntryWithin(k, entries[k], data, first, pos + 1)
    {
      EntryWider(k, entries[k], data, first, pos, pos + 1);
    }
  }

  /** One iteration of the dictionary loop. */
  lemma {:induction false} EntryCaptured(data: string, pos: nat, entries: map<string, Bendata>, code: string,
                                         first: nat, k: Parse, x: Parse)
    requires first <= pos <= |data| && code == data[first..pos] && ValuesWithin(entries, data, first, pos)
    requires ParseString(data, pos) == k && k.Parsed? && k.exact && ParseAny(data, k.rest) == x && x.Parsed? && x.exact
    ensures code + (k.node.code + x.node.code) == data[first..x.rest]
    ensures ValuesWithin(entries[k.node.text := x.node], data, first, x.rest)
    decreases |data| - pos, 2, 0
  {
    StringText(data, pos);
    AnyCaptured(data, k.rest);
    Joined(data, first, pos, k.rest, x.rest);
    OneEntryMore(entries, k.node.text, x.node, data, first, pos, k.rest, x.rest);
  }

  /** The dictionary loop, for a dictionary that started at `first`; its keys need be neither sorted nor distinct. */
  lemma {:induction false} EntriesCaptured(data: string, pos: nat, entries: map<string, Bendata>, code: string,
                                           exact: bool, first: nat)
    requires first <= pos <= |data| && code == data[first..pos] && ValuesWithin(entries, data, first, pos)
    requires ParseEntries(data, pos, entries, code, exact).Parsed?
    requires ParseEntries(data, pos, entries, code, exact).exact
    ensures var r := ParseEntries(data, pos, entries, code, exact); Captured(r.node, data, first, r.rest)
    decreases |data| - pos, 3, 1
  {
    EntriesLength(data, pos, entries, code, exact);
    var p := SkipSpaces(data, pos);
    if At(data, p, 'e') {
      EntriesEnd(data, pos, entries, code, first);
    } else {
      var k := ParseString(data, p);
      var x := ParseAny(data, k.rest);
      var more, text := entries[k.node.text := x.node], code + (k.node.code + x.node.code);
      var still := exact && k.exact && x.exact && p == pos;
      EntriesLength(data, x.rest, more, text, still);
      EntryCaptured(data, pos, entries, code, first, k, x);
      EntriesCaptured(data, x.rest, more, text, still, first);
    }
  }

  // ---------------------------------------------------------------------------
  // The results
  // ---------------------------------------------------------------------------

  lemma CodeStartsSolid(data: string, p: nat)
    requires p <= |data| && ParseToken(data, p).Parsed? && (p < |data| ==> !IsSpace(data[p]))
    ensures ParseToken(data, p).node.code != [] && !IsSpace(ParseToken(data, p).node.code[0])
  {
    if At(data, p, 'd') {
      EntriesExtend(data, p + 1, map[], "d", true);
    } else if At(data, p, 'l') {
      ItemsExtend(data, p + 1, [], "l", true);
    }
  }

  lemma {:induction false} ItemsExtend(data: string, pos: nat, items: seq<Bendata>, code: string, exact: bool)
    requires pos <= |data| && ParseItems(data, pos, items, code, exact).Parsed?
    ensures code <= ParseItems(data, pos, items, code, exact).node.code
    decreases |data| - pos
  {
    var p := SkipSpaces(data, pos);
    if !At(data, p, 'e') {
      var x := ParseAny(data, p);
      ItemsExtend(data, x.rest, items + [x.node], code + x.node.code, exact && x.exact && p == pos);
    }
  }

  lemma {:induction false} EntriesExtend(data: string, pos: nat, entries: map<string, Bendata>, code: string,
                                         exact: bool)
    requires pos <= |data| && ParseEntries(data, pos, entries, code, exact).Parsed?
    ensures code <= ParseEntries(data, pos, entries, code, exact).node.code
    decreases |data| - pos
  {
    var p := SkipSpaces(data, pos);
    if !At(data, p, 'e') {
      var k := ParseString(data, p);
      var x := ParseAny(data, k.rest);
      EntriesExtend(data, x.rest, entries[k.node.text := x.node], code + (k.node.code + x.node.code),
                    exact && k.exact && x.exact && p == pos);
    }
  }

  lemma TokenText(data: string, p: nat)
    requires p <= |data| && ParseToken(data, p).Parsed? && !ParseToken(data, p).exact
    ensures ParseToken(data, p).node.code != data[p..ParseToken(data, p).rest]
  {
    if At(data, p, 'i') {
      IntegerText(data, p);
    } else if At(data, p, 'd') || At(data, p, 'l') {
      ContainerLength(data, p);
    } else {
      StringText(data, p);
    }
  }

  /** The recorded text is the consumed text exactly when no whitespace was skipped, every integer was in canonical
      form with its `e`, and every string's `:` and payload were present; then that holds at every level. */
  lemma RawText(data: string, pos: nat)
    requires pos <= |data| && ParseAny(data, pos).Parsed?
    ensures var r := ParseAny(data, pos);
            && (r.exact <==> r.node.code == data[pos..r.rest])
            && (r.exact <==> Captured(r.node, data, pos, r.rest))
  {
    var r := ParseAny(data, pos);
    var p := SkipSpaces(data, pos);
    if r.exact {
      AnyCaptured(data, pos);
    } else if p > pos {
      CodeStartsSolid(data, p);
      assert data[pos..r.rest][0] == data[pos];
    } else {
      TokenText(data, p);
    }
  }

  // ---------------------------------------------------------------------------
  // Which entry a key's value comes from
  // ---------------------------------------------------------------------------

  /** Where the entries of a dictionary start, from any iteration of its loop. */
  function EntryStarts(data: string, pos: nat): (starts: seq<nat>)
    requires pos <= |data|
    ensures forall k :: 0 <= k < |starts| ==> pos <= starts[k] <= |data| && EntryAt(data, starts[k]).Complete()
    decreases |data| - pos
  {
    var p := SkipSpaces(data, pos);
    var e := EntryAt(data, p);
    if At(data, p, 'e') || !e.Complete() then [] else [p] + EntryStarts(data, e.value.rest)
  }

  /** An entry with the key is read there. */
  predicate HasKey(data: string, p: nat, key: string) {
    p <= |data| && EntryAt(data, p).Complete() && EntryAt(data, p).key.node.text == key
  }

  /** The last of the starts whose entry has the key. */
  function LastStart(data: string, starts: seq<nat>, key: string): (w: Option<nat>)
    ensures w.Some? ==> HasKey(data, w.value, key)
  {
    if starts == [] then None
    else
      var later := LastStart(data, starts[1..], key);
      if later.Some? then later else if HasKey(data, starts[0], key) then Some(starts[0]) else None
  }

  /** The k-th start is that of the last entry with the key. */
  ghost predicate LastWith(data: string, starts: seq<nat>, key: string, k: nat) {
    k < |starts| && HasKey(data, starts[k], key) && forall j :: k < j < |starts| ==> !HasKey(data, starts[j], key)
  }

  lemma {:induction false} LastStartIsLast(data: string, starts: seq<nat>, key: string) returns (k: nat)
    ensures var w := LastStart(data, starts, key);
            if w.Some? then LastWith(data, starts, key, k) && starts[k] == w.value
            else forall j :: 0 <= j < |starts| ==> !HasKey(data, starts[j], key)
    decreases |starts|
  {
    k := 0;
    if starts != [] {
      var later := LastStartIsLast(data, starts[1..], key);
      assert forall j :: 0 < j < |starts| ==> starts[j] == starts[1..][j - 1];
      k := if LastStart(data, starts[1..], key).Some? then later + 1 else 0;
    }
  }

  /** A key's value is that of its last entry, or else the one the dictionary had before. */
  ghost predicate ComesFrom(entries: map<string, Bendata>, r: Parse, key: string, data: string, w: Option<nat>)
    requires r.Parsed? && r.node.Dic? && key in r.node.entries && (w.Some? ==> HasKey(data, w.value, key))
  {
    match w
    case Some(p) => r.node.entries[key] == EntryAt(data, p).value.node
       && (r.exact ==> EntryAt(data, p).key.exact && EntryAt(data, p).value.exact)
    case None => key in entries && r.node.entries[key] == entries[key]
  }

  lemma {:induction false} LastEntry(data: string, pos: nat, entries: map<string, Bendata>, code: string, exact: bool,
                                     key: string)
    requires pos <= |data| && ParseEntries(data, pos, entries, code, exact).Parsed?
    requires key in ParseEntries(data, pos, entries, code, exact).node.entries
    ensures ComesFrom(entries, ParseEntries(data, pos, entries, code, exact), key, data,
                      LastStart(data, EntryStarts(data, pos), key))
    decreases |data| - pos
  {
    var p := SkipSpaces(data, pos);
    if !At(data, p, 'e') {
      EntriesNext(data, pos, p, entries, code, exact);
      var e := EntryAt(data, p);
      var more, text := entries[e.key.node.text := e.value.node], code + (e.key.node.code + e.value.node.code);
      var still := exact && e.key.exact && e.value.exact && p == pos;
      EntriesLength(data, e.value.rest, more, text, still);
      LastEntry(data, e.value.rest, more, text, still, key);
      assert EntryStarts(data, pos)[1..] == EntryStarts(data, e.value.rest);
    }
  }

  /**
   * So the info key is a stretch of the torrent file: the one right behind the key `info` in the entry of the outermost
   * dictionary with that key, and in the last such entry if the key is repeated.
   */
  lemma InfoKeyIsOriginal(data: string) returns (k: nat, x: nat, y: nat)
    requires ParseAny(data, 0).Parsed? && ParseAny(data, 0).exact
    requires ParseAny(data, 0).node.Dic? && "info" in ParseAny(data, 0).node.entries
    ensures LastWith(data, EntryStarts(data, 1), "info", k)
    ensures EntryStarts(data, 1)[k] <= x <= y <= |data| && KeyAt("info", data, EntryStarts(data, 1)[k], x)
    ensures ParseAny(data, x).Parsed? && ParseAny(data, x).rest == y
    ensures data[x..y] == ParseAny(data, 0).node.entries["info"].code
  {
    assert At(data, 0, 'd') by {
      DictionaryStarts(data);
    }
    LastEntry(data, 1, map[], "d", true, "info");
    k := LastStartIsLast(data, EntryStarts(data, 1), "info");
    var w := EntryStarts(data, 1)[k];
    var e := EntryAt(data, w);
    x, y := e.key.rest, e.value.rest;
    StringText(data, w);
    AnyCaptured(data, x);
  }

  lemma DictionaryStarts(data: string)
    requires ParseAny(data, 0).Parsed? && ParseAny(data, 0).exact && ParseAny(data, 0).node.Dic?
    ensures At(data, 0, 'd') && ParseAny(data, 0) == ParseEntries(data, 1, map[], "d", true)
  {
  }
}
