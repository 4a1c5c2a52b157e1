/** Decoding an encoding gives the value back, with each node's text, and leaves what follows untouched. */
module BencodeRoundTrip {
  import opened Bencode

  /** A value as a caller assembles it; a dictionary's pairs come in any order. */
  datatype Value = VNum(n: int) | VStr(s: string) | VList(items: seq<Value>) | VDict(pairs: seq<Pair>)

  datatype Pair = Pair(key: string, value: Value)

  function Encode(v: Value): string
    decreases v, 0
  {
    match v
    case VNum(n) => EncodeNum(n)
    case VStr(s) => EncodeStr(s)
    case VList(items) => EncodeToList(EncodeAll(items))
    case VDict(pairs) => EncodeToDict(EncodePairs(pairs))
  }

  function EncodeAll(items: seq<Value>): (r: seq<string>)
    ensures |r| == |items|
    decreases items, 1
  {
    if items == [] then [] else [Encode(items[0])] + EncodeAll(items[1..])
  }

  function EncodePairs(pairs: seq<Pair>): (r: seq<BenDictPair>)
    ensures |r| == |pairs|
    decreases pairs, 1
  {
    if pairs == [] then []
    else [BenDictPair(pairs[0].key, Encode(pairs[0].value))] + EncodePairs(pairs[1..])
  }

  function EncodeToDict(items: seq<BenDictPair>): string {
    DictText(SortPairs(items))
  }

  /** The examples of doc/the_bittorrent_protocol.md; its list and its dictionary lack the closing 'e'. */
  lemma DocumentedTexts()
    ensures EncodeStr("spam") == "4:spam" && EncodeNum(10) == "i10e"
    ensures EncodeToList([EncodeStr("felix"), EncodeStr("spam"), EncodeNum(20)]) == "l5:felix4:spami20e" + "e"
    ensures EncodeToDict([BenDictPair("age", EncodeNum(22))]) == "d3:agei22e" + "e"
  {
    DocumentedStrings();
    DocumentedNumbers();
    ThreeItems("5:felix", "4:spam", "i20e");
    OnePair("age", "i22e");
  }

  lemma DocumentedStrings()
    ensures EncodeStr("felix") == "5:felix" && EncodeStr("spam") == "4:spam" && EncodeStr("age") == "3:age"
  {
  }

  lemma DocumentedNumbers()
    ensures EncodeNum(10) == "i10e" && EncodeNum(20) == "i20e" && EncodeNum(22) == "i22e"
  {
    TwoDigits(1, 0);
    TwoDigits(2, 0);
    TwoDigits(2, 2);
  }

  lemma TwoDigits(a: nat, b: nat)
    requires 0 < a < 10 && b < 10
    ensures EncodeNum(10 * a + b) == "i" + [DigitChar(a), DigitChar(b)] + "e"
  {
    assert Digits(10 * a + b) == Digits(a) + [DigitChar(b)];
  }

  lemma OnePair(key: string, value: string)
    ensures EncodeToDict([BenDictPair(key, value)]) == "d" + EncodeStr(key) + value + "e"
  {
    var pair := BenDictPair(key, value);
    assert [pair][1..] == [] && SortPairs([pair]) == [pair];
    assert PairsText([pair]) == EncodeStr(key) + value + "";
  }

  lemma ThreeItems(a: string, b: string, c: string)
    ensures EncodeToList([a, b, c]) == "l" + a + b + c + "e"
  {
    var items := [a, b, c];
    assert items[1..] == [b, c] && [b, c][1..] == [c] && [c][1..] == [];
    assert Concat([c]) == c + "" && Concat([b, c]) == b + Concat([c]) && Concat(items) == a + Concat([b, c]);
  }

  /** 32-bit integers, int-sized strings, distinct dictionary keys. */
  ghost predicate WellFormed(v: Value)
    decreases v
  {
    match v
    case VNum(n) => INT_MIN <= n <= INT_MAX
    case VStr(s) => |s| <= INT_MAX
    case VList(items) => forall i :: 0 <= i < |items| ==> WellFormed(items[i])
    case VDict(pairs) =>
      && (forall i :: 0 <= i < |pairs| ==> WellFormed(pairs[i].value) && |pairs[i].key| <= INT_MAX)
      && DistinctPairs(pairs)
  }

  /** The node holds the value, and every node in it holds the encoding of its part as its recorded text. */
  ghost predicate Represents(node: Bendata, v: Value)
    decreases v
  {
    && node.code == Encode(v)
    && match v {
      case VNum(n) => node.Num? && node.value == n
      case VStr(s) => node.Str? && node.text == s
      case VList(items) =>
        node.Lis? && |node.items| == |items| && forall i :: 0 <= i < |items| ==> Represents(node.items[i], items[i])
      case VDict(pairs) =>
        && node.Dic?
        && (forall k :: k in node.entries <==> exists i :: 0 <= i < |pairs| && pairs[i].key == k)
        && (forall i :: 0 <= i < |pairs| ==>
              pairs[i].key in node.entries && Represents(node.entries[pairs[i].key], pairs[i].value))
    }
  }

  /** The node a value's encoding decodes to. */
  function Decoded(v: Value): (node: Bendata)
    ensures node.code == Encode(v)
    decreases v, 0
  {
    match v
    case VNum(n) => Num(n, Encode(v))
    case VStr(s) => Str(s, Encode(v))
    case VList(items) => Lis(DecodedAll(items), Encode(v))
    case VDict(pairs) => Dic(DecodedEntries(pairs), Encode(v))
  }

  function DecodedAll(items: seq<Value>): (r: seq<Bendata>)
    ensures |r| == |items|
    decreases items, 1
  {
    if items == [] then [] else [Decoded(items[0])] + DecodedAll(items[1..])
  }

  function DecodedEntries(pairs: seq<Pair>): map<string, Bendata>
    decreases pairs, 1
  {
    if pairs == [] then map[] else DecodedEntries(pairs[1..])[pairs[0].key := Decoded(pairs[0].value)]
  }

  lemma {:induction false} DecodedAllAt(items: seq<Value>, k: nat)
    requires k < |items|
    ensures DecodedAll(items)[k] == Decoded(items[k])
  {
    if k > 0 {
      DecodedAllAt(items[1..], k - 1);
    }
  }

  predicate DistinctPairs(pairs: seq<Pair>) {
    forall i, j :: 0 <= i < j < |pairs| ==> pairs[i].key != pairs[j].key
  }

  lemma {:induction false} DecodedEntriesAt(pairs: seq<Pair>, i: nat)
    requires i < |pairs| && DistinctPairs(pairs)
    ensures pairs[i].key in DecodedEntries(pairs) && DecodedEntries(pairs)[pairs[i].key] == Decoded(pairs[i].value)
  {
    if i > 0 {
      DecodedEntriesAt(pairs[1..], i - 1);
    }
  }

  lemma {:induction false} DecodedEntriesKeys(pairs: seq<Pair>, k: string)
    ensures k in DecodedEntries(pairs) <==> exists i :: 0 <= i < |pairs| && pairs[i].key == k
  {
    if pairs != [] {
      DecodedEntriesKeys(pairs[1..], k);
      if k in DecodedEntries(pairs[1..]) {
        var i :| 0 <= i < |pairs[1..]| && pairs[1..][i].key == k;
        assert pairs[i + 1].key == k;
      }
      if exists i :: 0 <= i < |pairs| && pairs[i].key == k {
        var i :| 0 <= i < |pairs| && pairs[i].key == k;
        if i > 0 {
          assert pairs[1..][i - 1].key == k;
        }
      }
    }
  }

  /** That node holds the value, and the right text at every level. */
  lemma {:induction false} DecodedRepresents(v: Value)
    requires WellFormed(v)
    ensures Represents(Decoded(v), v)
    decreases v
  {
    match v
    case VNum(n) =>
    case VStr(s) =>
    case VList(items) =>
      forall i | 0 <= i < |items|
        ensures Represents(Decoded(v).items[i], items[i])
      {
        DecodedAllAt(items, i);
        DecodedRepresents(items[i]);
      }
    case VDict(pairs) =>
      forall k
        ensures k in Decoded(v).entries <==> exists i :: 0 <= i < |pairs| && pairs[i].key == k
      {
        DecodedEntriesKeys(pairs, k);
      }
      forall i | 0 <= i < |pairs|
        ensures pairs[i].key in Decoded(v).entries && Represents(Decoded(v).entries[pairs[i].key], pairs[i].value)
      {
        DecodedEntriesAt(pairs, i);
        assert pairs[i] in pairs;
        DecodedRepresents(pairs[i].value);
      }
  }

  // ---------------------------------------------------------------------------
  // Numbers
  // ---------------------------------------------------------------------------

  lemma {:induction false} DigitCountAll(d: string, tail: string)
    requires forall k :: 0 <= k < |d| ==> IsDigit(d[k])
    requires tail == [] || !IsDigit(tail[0])
    ensures DigitCount(d + tail) == |d|
  {
    if d == [] {
      assert d + tail == tail;
    } else {
      DigitCountAll(d[1..], tail);
      assert (d + tail)[1..] == d[1..] + tail;
    }
  }

  lemma {:induction false} ValueOfDigits(n: nat)
    ensures Decimal(Digits(n)) == n
  {
    if n < 10 {
      assert Digits(n)[..0] == [];
    } else {
      ValueOfDigits(n / 10);
      assert Digits(n)[..|Digits(n)| - 1] == Digits(n / 10);
    }
  }

  lemma MagnitudeOfDigits(n: nat, negative: bool)
    requires INT_MIN <= (if negative then -(n as int) else n) <= INT_MAX
    ensures Magnitude(Digits(n), negative) == Some(if negative then -(n as int) else n)
  {
    DigitCountAll(Digits(n), []);
    assert Digits(n) + [] == Digits(n) && Digits(n)[..|Digits(n)|] == Digits(n);
    ValueOfDigits(n);
  }

  /** `stoi` reads back what `to_string` writes, over the whole range of int. */
  lemma StoiToString(n: int)
    requires INT_MIN <= n <= INT_MAX
    ensures Stoi(ToString(n)) == Some(n)
  {
    var s := ToString(n);
    assert !IsSpace(s[0]) && s[SpaceCount(s)..] == s;
    if n < 0 {
      assert s[1..] == Digits(-n);
      MagnitudeOfDigits(-n, true);
    } else {
      assert IsDigit(s[0]);
      MagnitudeOfDigits(n, false);
    }
  }

  lemma ToStringChars(n: int)
    ensures forall k :: 0 <= k < |ToString(n)| ==> IsDigit(ToString(n)[k]) || ToString(n)[k] == '-'
    ensures n >= 0 ==> IsDigit(ToString(n)[0])
  {
  }

  // ---------------------------------------------------------------------------
  // Scalars
  // ---------------------------------------------------------------------------

  /** The input holds a text at a position. */
  ghost predicate Holds(data: string, pos: nat, text: string) {
    pos + |text| <= |data| && forall k :: 0 <= k < |text| ==> data[pos + k] == text[k]
  }

  lemma HoldsParts(data: string, pos: nat, a: string, b: string)
    requires Holds(data, pos, a + b)
    ensures Holds(data, pos, a) && Holds(data, pos + |a|, b)
  {
    var t := a + b;
    forall k | 0 <= k < |a|
      ensures data[pos + k] == a[k]
    {
      assert data[pos + k] == t[k];
    }
    forall k | 0 <= k < |b|
      ensures data[pos + |a| + k] == b[k]
    {
      assert data[pos + (|a| + k)] == t[|a| + k];
    }
  }

  lemma HoldsSlice(data: string, pos: nat, text: string)
    requires Holds(data, pos, text)
    ensures data[pos..pos + |text|] == text
  {
  }

  lemma HoldsAt(data: string, pos: nat, text: string, k: nat)
    requires Holds(data, pos, text) && k < |text|
    ensures data[pos + k] == text[k]
  {
  }

  /** A scan stops at the delimiter behind a text that does not contain it. */
  lemma FindAfter(data: string, pos: nat, text: string, stop: char)
    requires Holds(data, pos, text) && stop !in text
    requires pos + |text| < |data| && data[pos + |text|] == stop
    ensures Find(data, pos, stop) == pos + |text|
  {
    forall k | pos <= k < pos + |text|
      ensures data[k] != stop
    {
      HoldsAt(data, pos, text, k - pos);
    }
  }

  /** A number in front of a delimiter is cut out and read back. */
  lemma NumberScanned(data: string, pos: nat, n: int, stop: char)
    requires Holds(data, pos, ToString(n)) && INT_MIN <= n <= INT_MAX && !IsDigit(stop) && stop != '-'
    requires pos + |ToString(n)| < |data| && data[pos + |ToString(n)|] == stop
    ensures var j := pos + |ToString(n)|;
            Find(data, pos, stop) == j && data[pos..j] == ToString(n) && Stoi(data[pos..j]) == Some(n)
  {
    ToStringChars(n);
    FindAfter(data, pos, ToString(n), stop);
    HoldsSlice(data, pos, ToString(n));
    StoiToString(n);
  }

  lemma StringParses(data: string, pos: nat, s: string)
    requires Holds(data, pos, EncodeStr(s)) && |s| <= INT_MAX
    ensures ParseString(data, pos) == Parsed(Str(s, EncodeStr(s)), pos + |EncodeStr(s)|, true)
  {
    var size := ToString(|s|);
    var j := pos + |size|;
    HoldsParts(data, pos, size + ":", s);
    HoldsParts(data, pos, size, ":");
    HoldsAt(data, j, ":", 0);
    NumberScanned(data, pos, |s|, ':');
    HoldsSlice(data, j + 1, s);
    StringParsesAt(data, pos, s, j);
  }

  lemma StringParsesAt(data: string, pos: nat, s: string, j: nat)
    requires pos <= j < |data| && Find(data, pos, ':') == j && data[pos..j] == ToString(|s|)
    requires Stoi(data[pos..j]) == Some(|s|)
    requires j + 1 + |s| <= |data| && data[j + 1..j + 1 + |s|] == s
    ensures ParseString(data, pos) == Parsed(Str(s, EncodeStr(s)), j + 1 + |s|, true)
  {
    var start := j + 1;
    var text := Payload(data, start, |s|);
    assert text == s && |s| <= |data| - start;
    assert EncodeStr(s) == data[pos..j] + ":" + text;
  }

  lemma IntegerParses(data: string, pos: nat, n: int)
    requires Holds(data, pos, EncodeNum(n)) && INT_MIN <= n <= INT_MAX
    ensures ParseInteger(data, pos) == Parsed(Num(n, EncodeNum(n)), pos + |EncodeNum(n)|, true)
  {
    var j := IntegerLayout(data, pos, n, ToString(n));
    NumberScanned(data, pos + 1, n, 'e');
    IntegerParsesAt(data, pos, n, j);
  }

  lemma IntegerLayout(data: string, pos: nat, n: int, text: string) returns (j: nat)
    requires Holds(data, pos, EncodeNum(n)) && text == ToString(n)
    ensures Holds(data, pos + 1, text) && j == pos + 1 + |text| < |data| && data[j] == 'e'
    ensures j + 1 == pos + |EncodeNum(n)|
  {
    TextSplits("i", text, "e");
    HoldsParts(data, pos, "i", text + "e");
    HoldsParts(data, pos + 1, text, "e");
    j := pos + 1 + |text|;
    HoldsAt(data, j, "e", 0);
  }

  lemma IntegerParsesAt(data: string, pos: nat, n: int, j: nat)
    requires pos < j < |data| && Find(data, pos + 1, 'e') == j && data[pos + 1..j] == ToString(n)
    requires Stoi(data[pos + 1..j]) == Some(n)
    ensures ParseInteger(data, pos) == Parsed(Num(n, EncodeNum(n)), j + 1, true)
  {
  }

  // ---------------------------------------------------------------------------
  // Containers
  // ---------------------------------------------------------------------------

  /** An encoding starts with a character the decoder neither skips nor takes for the end of a container. */
  lemma EncodeStarts(v: Value)
    ensures Encode(v) != [] && !IsSpace(Encode(v)[0]) && Encode(v)[0] != 'e'
    ensures match v
            case VNum(_) => Encode(v)[0] == 'i'
            case VStr(_) => IsDigit(Encode(v)[0])
            case VList(_) => Encode(v)[0] == 'l'
            case VDict(_) => Encode(v)[0] == 'd'
  {
    if v.VStr? {
      ToStringChars(|v.s|);
    }
  }

  lemma NoSpacesSkipped(data: string, pos: nat, text: string)
    requires Holds(data, pos, text) && text != [] && !IsSpace(text[0])
    ensures SkipSpaces(data, pos) == pos && data[pos] == text[0]
  {
    HoldsAt(data, pos, text, 0);
  }

  /** Decoding at any position that holds a value's encoding yields its node and stops right behind it. */
  lemma {:induction false} ValueParses(data: string, pos: nat, v: Value)
    requires WellFormed(v) && Holds(data, pos, Encode(v))
    ensures ParseAny(data, pos) == Parsed(Decoded(v), pos + |Encode(v)|, true)
    decreases v, 2, 0
  {
    EncodeStarts(v);
    NoSpacesSkipped(data, pos, Encode(v));
    match v
    case VNum(n) => IntegerParses(data, pos, n);
    case VStr(s) => StringParses(data, pos, s);
    case VList(items) =>
      ListParses(data, pos, v);
    case VDict(pairs) =>
      DictParses(data, pos, v);
  }

  /** One iteration of the list loop over an element that parses exactly. */
  lemma ItemsStep(data: string, pos: nat, nodes: seq<Bendata>, code: string, node: Bendata, rest: nat)
    requires pos <= |data| && SkipSpaces(data, pos) == pos && !At(data, pos, 'e')
    requires ParseAny(data, pos) == Parsed(node, rest, true)
    ensures ParseItems(data, pos, nodes, code, true) == ParseItems(data, rest, nodes + [node], code + node.code, true)
  {
  }

  lemma TextSplits(a: string, b: string, c: string)
    ensures (a + b) + c == a + (b + c)
  {
  }

  /** What is left of a list's text in front of the elements still to come. */
  function ItemsText(left: seq<Value>): string {
    if left == [] then "e" else Encode(left[0]) + ItemsText(left[1..])
  }

  lemma {:induction false} ItemsTextIs(left: seq<Value>)
    ensures ItemsText(left) == Concat(EncodeAll(left)) + "e"
  {
    if left != [] {
      ItemsTextIs(left[1..]);
      assert EncodeAll(left)[1..] == EncodeAll(left[1..]);
      TextSplits(Encode(left[0]), Concat(EncodeAll(left[1..])), "e");
    }
  }

  lemma ListText(v: Value)
    requires v.VList?
    ensures Encode(v) == "l" + ItemsText(v.items)
  {
    ItemsTextIs(v.items);
    TextSplits("l", Concat(EncodeAll(v.items)), "e");
  }

  /** One iteration of the list loop. */
  lemma {:induction false} ItemsHead(data: string, pos: nat, v: Value, x: Value, nodes: seq<Bendata>, code: string,
                                     rest: nat)
    requires v.VList? && WellFormed(v) && x in v.items && Holds(data, pos, Encode(x)) && rest == pos + |Encode(x)|
    ensures rest <= |data|
    ensures ParseItems(data, pos, nodes, code, true)
         == ParseItems(data, rest, nodes + [Decoded(x)], code + Encode(x), true)
    decreases v, 0, 1
  {
    EncodeStarts(x);
    NoSpacesSkipped(data, pos, Encode(x));
    ValueParses(data, pos, x);
    ItemsStep(data, pos, nodes, code, Decoded(x), rest);
  }

  ghost predicate Among(left: seq<Value>, items: seq<Value>) {
    forall x :: x in left ==> x in items
  }

  lemma DecodedSplits(nodes: seq<Bendata>, left: seq<Value>)
    requires left != []
    ensures (nodes + [Decoded(left[0])]) + DecodedAll(left[1..]) == nodes + DecodedAll(left)
  {
  }

  /** The list loop, from any of its iterations. */
  lemma {:induction false} ItemsParse(data: string, pos: nat, v: Value, left: seq<Value>, nodes: seq<Bendata>,
                                      code: string, end: nat)
    requires v.VList? && WellFormed(v) && Among(left, v.items)
    requires Holds(data, pos, ItemsText(left)) && end == pos + |ItemsText(left)|
    ensures ParseItems(data, pos, nodes, code, true)
         == Parsed(Lis(nodes + DecodedAll(left), code + ItemsText(left)), end, true)
    decreases v, 1, |left|
  {
    if left == [] {
      NoSpacesSkipped(data, pos, "e");
    } else {
      var x, more := left[0], left[1..];
      var text := Encode(x);
      var rest := pos + |text|;
      HoldsParts(data, pos, text, ItemsText(more));
      ItemsHead(data, pos, v, x, nodes, code, rest);
      ItemsParse(data, rest, v, more, nodes + [Decoded(x)], code + text, end);
      TextSplits(code, text, ItemsText(more));
      DecodedSplits(nodes, left);
    }
  }

  lemma {:induction false} ListParses(data: string, pos: nat, v: Value)
    requires v.VList? && WellFormed(v) && Holds(data, pos, Encode(v)) && SkipSpaces(data, pos) == pos
    requires data[pos] == 'l'
    ensures ParseAny(data, pos) == Parsed(Decoded(v), pos + |Encode(v)|, true)
    decreases v, 1, |v.items| + 1
  {
    var text := ItemsText(v.items);
    ListText(v);
    HoldsParts(data, pos, "l", text);
    ItemsParse(data, pos + 1, v, v.items, [], "l", pos + |Encode(v)|);
  }

  // ---------------------------------------------------------------------------
  // Dictionaries
  // ---------------------------------------------------------------------------

  function Encoded(p: Pair): BenDictPair {
    BenDictPair(p.key, Encode(p.value))
  }

  lemma {:induction false} EncodePairsAt(pairs: seq<Pair>, k: nat)
    requires k < |pairs|
    ensures EncodePairs(pairs)[k] == Encoded(pairs[k])
  {
    if k > 0 {
      EncodePairsAt(pairs[1..], k - 1);
    }
  }

  /** The text is that of one of the dictionary's pairs. */
  ghost predicate Belongs(x: BenDictPair, pairs: seq<Pair>) {
    exists p :: p in pairs && x == Encoded(p)
  }

  ghost predicate FromPairs(sorted: seq<BenDictPair>, pairs: seq<Pair>) {
    forall x :: x in sorted ==> Belongs(x, pairs)
  }

  ghost predicate Placed(entries: map<string, Bendata>, p: Pair) {
    p.key in entries ==> entries[p.key] == Decoded(p.value)
  }

  /** The keys parsed so far are held with the nodes that belong to them. */
  ghost predicate Filled(entries: map<string, Bendata>, pairs: seq<Pair>) {
    forall p :: p in pairs ==> Placed(entries, p)
  }

  lemma SameKeySamePair(pairs: seq<Pair>, p: Pair, q: Pair)
    requires DistinctPairs(pairs) && p in pairs && q in pairs && p.key == q.key
    ensures p == q
  {
  }

  function Keys(sorted: seq<BenDictPair>): set<string> {
    set k | 0 <= k < |sorted| :: sorted[k].key
  }

  ghost predicate KeysCovered(pairs: seq<Pair>, sorted: seq<BenDictPair>) {
    forall p :: p in pairs ==> p.key in Keys(sorted)
  }

  lemma KeyParses(data: string, pos: nat, key: string)
    requires Holds(data, pos, EncodeStr(key)) && |key| <= INT_MAX
    ensures SkipSpaces(data, pos) == pos && !At(data, pos, 'e') && pos + |EncodeStr(key)| <= |data|
    ensures ParseString(data, pos) == Parsed(Str(key, EncodeStr(key)), pos + |EncodeStr(key)|, true)
  {
    EncodeStarts(VStr(key));
    NoSpacesSkipped(data, pos, EncodeStr(key));
    StringParses(data, pos, key);
  }

  function EntryText(x: BenDictPair): string {
    EncodeStr(x.key) + x.bencodedValue
  }

  /** One iteration of the dictionary loop over an entry that parses exactly. */
  lemma EntriesStep(data: string, pos: nat, entries: map<string, Bendata>, code: string, key: string, middle: nat,
                    node: Bendata, rest: nat)
    requires pos <= middle <= |data| && SkipSpaces(data, pos) == pos && !At(data, pos, 'e')
    requires ParseString(data, pos) == Parsed(Str(key, EncodeStr(key)), middle, true)
    requires ParseAny(data, middle) == Parsed(node, rest, true)
    ensures ParseEntries(data, pos, entries, code, true)
         == ParseEntries(data, rest, entries[key := node], code + EntryText(BenDictPair(key, node.code)), true)
  {
  }

  /** What is left of a dictionary's text. */
  function EntriesText(sorted: seq<BenDictPair>): string {
    if sorted == [] then "e"
    else EntryText(sorted[0]) + EntriesText(sorted[1..])
  }

  lemma {:induction false} EntriesTextIs(sorted: seq<BenDictPair>)
    ensures EntriesText(sorted) == PairsText(sorted) + "e"
  {
    if sorted != [] {
      EntriesTextIs(sorted[1..]);
      TextSplits(EncodeStr(sorted[0].key) + sorted[0].bencodedValue, PairsText(sorted[1..]), "e");
    }
  }

  /** One iteration of the dictionary loop. */
  lemma {:induction false} EntriesHead(data: string, pos: nat, v: Value, p: Pair, before: map<string, Bendata>,
                                       code: string, rest: nat)
    requires v.VDict? && WellFormed(v) && p in v.pairs && Holds(data, pos, EntryText(Encoded(p)))
    requires rest == pos + |EntryText(Encoded(p))|
    ensures rest <= |data|
    ensures ParseEntries(data, pos, before, code, true)
         == ParseEntries(data, rest, before[p.key := Decoded(p.value)], code + EntryText(Encoded(p)), true)
    decreases v, 1, 0
  {
    var middle := pos + |EncodeStr(p.key)|;
    HoldsParts(data, pos, EncodeStr(p.key), Encode(p.value));
    PartFits(v, p);
    KeyParses(data, pos, p.key);
    PartValueParses(data, middle, v, p, rest);
    EntriesStep(data, pos, before, code, p.key, middle, Decoded(p.value), rest);
  }

  lemma {:induction false} PartValueParses(data: string, pos: nat, v: Value, p: Pair, rest: nat)
    requires v.VDict? && WellFormed(v) && p in v.pairs && Holds(data, pos, Encode(p.value))
    requires rest == pos + |Encode(p.value)|
    ensures ParseAny(data, pos) == Parsed(Decoded(p.value), rest, true)
    decreases v, 0, 0
  {
    ValueParses(data, pos, p.value);
  }

  lemma PartFits(v: Value, p: Pair)
    requires v.VDict? && WellFormed(v) && p in v.pairs
    ensures WellFormed(p.value) && |p.key| <= INT_MAX
  {
  }

  /** The dictionary loop over pairs already in some order. */
  lemma {:induction false} EntriesParse(data: string, pos: nat, v: Value, sorted: seq<BenDictPair>,
                                        before: map<string, Bendata>, code: string, end: nat)
      returns (entries: map<string, Bendata>)
    requires v.VDict? && WellFormed(v) && FromPairs(sorted, v.pairs) && Filled(before, v.pairs)
    requires Holds(data, pos, EntriesText(sorted)) && end == pos + |EntriesText(sorted)|
    ensures ParseEntries(data, pos, before, code, true) == Parsed(Dic(entries, code + EntriesText(sorted)), end, true)
    ensures Filled(entries, v.pairs) && entries.Keys == before.Keys + Keys(sorted)
    decreases v, 1, |sorted|
  {
    if sorted == [] {
      NoSpacesSkipped(data, pos, "e");
      entries := before;
    } else {
      assert Belongs(sorted[0], v.pairs);
      var p :| p in v.pairs && sorted[0] == Encoded(p);
      var text, tail := EntryText(sorted[0]), sorted[1..];
      var rest := pos + |text|;
      HoldsParts(data, pos, text, EntriesText(tail));
      EntriesHead(data, pos, v, p, before, code, rest);
      var more := before[p.key := Decoded(p.value)];
      FilledMore(before, more, v.pairs, p);
      entries := EntriesParse(data, rest, v, tail, more, code + text, end);
      TextSplits(code, text, EntriesText(tail));
      KeysSplit(sorted);
    }
  }

  lemma FilledMore(entries: map<string, Bendata>, more: map<string, Bendata>, pairs: seq<Pair>, q: Pair)
    requires Filled(entries, pairs) && q in pairs && DistinctPairs(pairs)
    requires more == entries[q.key := Decoded(q.value)]
    ensures Filled(more, pairs) && more.Keys == entries.Keys + {q.key}
  {
    forall p | p in pairs
      ensures Placed(more, p)
    {
      assert Placed(entries, p);
      if p.key == q.key {
        SameKeySamePair(pairs, p, q);
      }
    }
  }

  lemma KeysSplit(sorted: seq<BenDictPair>)
    requires sorted != []
    ensures Keys(sorted) == {sorted[0].key} + Keys(sorted[1..])
  {
    assert sorted == [sorted[0]] + sorted[1..];
    forall k | k in Keys(sorted)
      ensures k in {sorted[0].key} + Keys(sorted[1..])
    {
      var j :| 0 <= j < |sorted| && sorted[j].key == k;
      if j > 0 {
        assert sorted[1..][j - 1] == sorted[j];
      }
    }
    forall k | k in Keys(sorted[1..])
      ensures k in Keys(sorted)
    {
      var j :| 0 <= j < |sorted[1..]| && sorted[1..][j].key == k;
      assert sorted[j + 1].key == k;
    }
  }

  /** Sorting neither loses nor invents a pair. */
  lemma SortedPairs(pairs: seq<Pair>)
    ensures var sorted := SortPairs(EncodePairs(pairs));
            && FromPairs(sorted, pairs)
            && KeysCovered(pairs, sorted)
  {
    var texts := EncodePairs(pairs);
    var sorted := SortPairs(texts);
    SortPairsSorts(texts);
    forall x | x in sorted
      ensures Belongs(x, pairs)
    {
      assert x in multiset(texts);
      var i :| 0 <= i < |texts| && texts[i] == x;
      EncodePairsAt(pairs, i);
      assert pairs[i] in pairs;
    }
    forall p | p in pairs
      ensures p.key in Keys(sorted)
    {
      var i :| 0 <= i < |pairs| && pairs[i] == p;
      EncodePairsAt(pairs, i);
      assert texts[i] in multiset(sorted);
      var k :| 0 <= k < |sorted| && sorted[k] == texts[i];
    }
  }

  lemma {:induction false} DictParses(data: string, pos: nat, v: Value)
    requires v.VDict? && WellFormed(v) && Holds(data, pos, Encode(v)) && SkipSpaces(data, pos) == pos
    requires data[pos] == 'd'
    ensures ParseAny(data, pos) == Parsed(Decoded(v), pos + |Encode(v)|, true)
    decreases v, 1, |v.pairs| + 1
  {
    var sorted := SortPairs(EncodePairs(v.pairs));
    SortedPairs(v.pairs);
    EntriesTextIs(sorted);
    var text := EntriesText(sorted);
    TextSplits("d", PairsText(sorted), "e");
    assert Encode(v) == "d" + text;
    HoldsParts(data, pos, "d", text);
    var entries := EntriesParse(data, pos + 1, v, sorted, map[], "d", pos + |Encode(v)|);
    EntriesAreDecoded(entries, v.pairs, sorted);
  }

  lemma KeyBelongs(k: string, sorted: seq<BenDictPair>, pairs: seq<Pair>) returns (i: nat)
    requires FromPairs(sorted, pairs) && k in Keys(sorted)
    ensures i < |pairs| && pairs[i].key == k
  {
    var j :| 0 <= j < |sorted| && sorted[j].key == k;
    assert Belongs(sorted[j], pairs);
    var p :| p in pairs && sorted[j] == Encoded(p);
    i :| 0 <= i < |pairs| && pairs[i] == p;
  }

  lemma EntryIsDecoded(entries: map<string, Bendata>, pairs: seq<Pair>, i: nat)
    requires DistinctPairs(pairs) && Filled(entries, pairs) && i < |pairs| && pairs[i].key in entries
    ensures pairs[i].key in DecodedEntries(pairs) && entries[pairs[i].key] == DecodedEntries(pairs)[pairs[i].key]
  {
    assert pairs[i] in pairs && Placed(entries, pairs[i]);
    DecodedEntriesAt(pairs, i);
  }

  lemma KeyAgrees(pairs: seq<Pair>, sorted: seq<BenDictPair>, k: string)
    requires FromPairs(sorted, pairs) && KeysCovered(pairs, sorted)
    ensures k in Keys(sorted) <==> k in DecodedEntries(pairs)
  {
    DecodedEntriesKeys(pairs, k);
    if k in Keys(sorted) {
      var i := KeyBelongs(k, sorted, pairs);
    }
    if k in DecodedEntries(pairs) {
      var i :| 0 <= i < |pairs| && pairs[i].key == k;
      assert pairs[i] in pairs;
    }
  }

  lemma ValueAgrees(entries: map<string, Bendata>, pairs: seq<Pair>, sorted: seq<BenDictPair>, k: string)
    requires DistinctPairs(pairs) && FromPairs(sorted, pairs) && Filled(entries, pairs) && k in entries
    requires k in Keys(sorted)
    ensures k in DecodedEntries(pairs) && entries[k] == DecodedEntries(pairs)[k]
  {
    var i := KeyBelongs(k, sorted, pairs);
    EntryIsDecoded(entries, pairs, i);
  }

  lemma EntriesAreDecoded(entries: map<string, Bendata>, pairs: seq<Pair>, sorted: seq<BenDictPair>)
    requires DistinctPairs(pairs) && FromPairs(sorted, pairs) && Filled(entries, pairs) && entries.Keys == Keys(sorted)
    requires KeysCovered(pairs, sorted)
    ensures entries == DecodedEntries(pairs)
  {
    var whole := DecodedEntries(pairs);
    forall k
      ensures k in entries <==> k in whole
    {
      KeyAgrees(pairs, sorted, k);
    }
    forall k | k in entries
      ensures k in whole && entries[k] == whole[k]
    {
      ValueAgrees(entries, pairs, sorted, k);
    }
  }

  /** Two callers that give the same distinct-keyed pairs in different orders get the same text. */
  lemma PairOrderIrrelevant(a: seq<BenDictPair>, b: seq<BenDictPair>)
    requires multiset(a) == multiset(b) && DistinctKeys(a)
    ensures EncodeToDict(a) == EncodeToDict(b)
  {
    SortPairsSorts(a);
    SortPairsSorts(b);
    DistinctInAnyOrder(a, SortPairs(a));
    SortUnique(SortPairs(a), SortPairs(b));
  }

  /** The round trip: whatever surrounds the encoding, and in whatever order the pairs were given. */
  lemma RoundTrip(before: string, v: Value, suffix: string)
    requires WellFormed(v)
    ensures var r := ParseAny(before + Encode(v) + suffix, |before|);
            r.Parsed? && Represents(r.node, v) && r.exact
            && (before + Encode(v) + suffix)[r.rest..] == suffix
  {
    var data := before + Encode(v) + suffix;
    assert Holds(data, |before|, Encode(v));
    ValueParses(data, |before|, v);
    DecodedRepresents(v);
  }
}
