/** Bencoding: what the decoder and the encoder of src/Bencoder compute, as functions on whole inputs. */
module Bencode {

  /** A decoded node: its value, and the text recorded for it. */
  datatype Bendata =
    | Num(value: int, code: string)
    | Str(text: string, code: string)
    | Lis(items: seq<Bendata>, code: string)
    | Dic(entries: map<string, Bendata>, code: string)

  // ---------------------------------------------------------------------------
  // Decimal numbers
  // ---------------------------------------------------------------------------

  const INT_MAX: int := 0x7FFF_FFFF
  const INT_MIN: int := -0x8000_0000

  predicate IsDigit(c: char) {
    '0' <= c <= '9'
  }

  predicate IsSpace(c: char) {
    c == ' ' || c == '\t' || c == '\n' || c == '\r' || c == 11 as char || c == 12 as char
  }

  function DigitChar(d: nat): (c: char)
    requires d < 10
    ensures IsDigit(c) && DigitValue(c) == d
  {
    d as char + '0'
  }

  function DigitValue(c: char): (d: nat)
    requires IsDigit(c)
    ensures d < 10
  {
    (c - '0') as nat
  }

  function Digits(n: nat): (s: string)
    ensures s != [] && forall k :: 0 <= k < |s| ==> IsDigit(s[k])
  {
    if n < 10 then [DigitChar(n)] else Digits(n / 10) + [DigitChar(n % 10)]
  }

  /** `std::to_string`. */
  function ToString(n: int): (s: string)
    ensures s != []
  {
    if n < 0 then "-" + Digits(-n) else Digits(n)
  }

  function DigitCount(s: string): (n: nat)
    ensures n <= |s| && forall k :: 0 <= k < n ==> IsDigit(s[k])
    ensures n < |s| ==> !IsDigit(s[n])
  {
    if s == [] || !IsDigit(s[0]) then 0 else 1 + DigitCount(s[1..])
  }

  function Decimal(s: string): nat
    requires forall k :: 0 <= k < |s| ==> IsDigit(s[k])
  {
    if s == [] then 0 else 10 * Decimal(s[..|s| - 1]) + DigitValue(s[|s| - 1])
  }

  function SpaceCount(s: string): (n: nat)
    ensures n <= |s| && forall k :: 0 <= k < n ==> IsSpace(s[k])
    ensures n < |s| ==> !IsSpace(s[n])
  {
    if s == [] || !IsSpace(s[0]) then 0 else 1 + SpaceCount(s[1..])
  }

  datatype Option<T> = None | Some(value: T)

  /** The value of the digits a text starts with, if any and if it fits an int. */
  function Magnitude(s: string, negative: bool): (r: Option<int>) {
    var d := s[..DigitCount(s)];
    var v: int := if negative then -(Decimal(d) as int) else Decimal(d);
    if d == [] || v < INT_MIN || v > INT_MAX then None else Some(v)
  }

  /** `std::stoi`: leading spaces, an optional sign, digits; whatever follows them is ignored. */
  function Stoi(s: string): (r: Option<int>)
    ensures r.Some? ==> s != [] && INT_MIN <= r.value <= INT_MAX
  {
    var t := s[SpaceCount(s)..];
    if t == [] then None
    else if t[0] == '-' then Magnitude(t[1..], true)
    else if t[0] == '+' then Magnitude(t[1..], false)
    else Magnitude(t, false)
  }

  /** The spaces of the C locale, by their codes. */
  lemma SpaceCodes(c: char)
    ensures IsSpace(c) <==> c as int == 32 || 9 <= c as int <= 13
  {
    assert (11 as char) as int == 11 && (12 as char) as int == 12;
  }

  lemma DigitAlphabet(d: nat)
    requires d < 10
    ensures DigitChar(d) == "0123456789"[d]
  {
  }

  /** Spaces up to a, an optional sign there, and digits up to b, as far as they go: together they read v. */
  predicate NumberAt(s: string, a: nat, b: nat, v: int) {
    && a < |s| && (forall k :: 0 <= k < a ==> IsSpace(s[k]))
    && var from := if s[a] == '-' || s[a] == '+' then a + 1 else a;
    && from < b <= |s| && (forall k :: from <= k < b ==> IsDigit(s[k])) && (b < |s| ==> !IsDigit(s[b]))
    && v == if s[a] == '-' then -(Decimal(s[from..b]) as int) else Decimal(s[from..b])
  }

  lemma CountSpaces(s: string, a: nat)
    requires a <= |s| && (forall k :: 0 <= k < a ==> IsSpace(s[k])) && (a < |s| ==> !IsSpace(s[a]))
    ensures SpaceCount(s) == a
  {
  }

  lemma CountDigits(s: string, n: nat)
    requires n <= |s| && (forall k :: 0 <= k < n ==> IsDigit(s[k])) && (n < |s| ==> !IsDigit(s[n]))
    ensures DigitCount(s) == n
  {
  }

  /** stoi succeeds exactly on a text that begins with a number in the range of a 32-bit int, and yields it. */
  lemma StoiExactly(s: string, v: int)
    ensures Stoi(s) == Some(v) <==> -2147483648 <= v <= 2147483647 && exists a, b :: NumberAt(s, a, b, v)
  {
    if Stoi(s) == Some(v) {
      StoiReads(s, v);
    }
    if exists a, b :: NumberAt(s, a, b, v) {
      var a, b :| NumberAt(s, a, b, v);
      NumberRead(s, a, b, v);
    }
  }

  lemma StoiReads(s: string, v: int)
    requires Stoi(s) == Some(v)
    ensures -2147483648 <= v <= 2147483647 && exists a, b :: NumberAt(s, a, b, v)
  {
    var a := SpaceCount(s);
    var from := if s[a] == '-' || s[a] == '+' then a + 1 else a;
    var n := DigitCount(s[from..]);
    assert s[a..][1..] == s[a + 1..];
    assert Magnitude(s[from..], s[a] == '-') == Some(v);
    DigitsFrom(s, from, n);
    MagnitudeReads(s[from..], s[from..from + n], s[a] == '-', v);
    assert NumberAt(s, a, from + n, v);
  }

  lemma MagnitudeReads(t: string, d: string, negative: bool, v: int)
    requires d == t[..DigitCount(t)] && Magnitude(t, negative) == Some(v)
    ensures d != [] && v == (if negative then -(Decimal(d) as int) else Decimal(d)) && -2147483648 <= v <= 2147483647
  {
  }

  lemma DigitsFrom(s: string, from: nat, n: nat)
    requires from <= |s| && n == DigitCount(s[from..])
    ensures from + n <= |s| && s[from..][..n] == s[from..from + n]
    ensures (forall k :: from <= k < from + n ==> IsDigit(s[k])) && (from + n < |s| ==> !IsDigit(s[from + n]))
  {
    assert forall k :: from <= k < |s| ==> s[k] == s[from..][k - from];
  }

  lemma DigitsUpTo(s: string, from: nat, b: nat)
    requires from <= b <= |s| && (forall k :: from <= k < b ==> IsDigit(s[k])) && (b < |s| ==> !IsDigit(s[b]))
    ensures DigitCount(s[from..]) == b - from && s[from..][..b - from] == s[from..b]
  {
    assert forall k :: 0 <= k < |s| - from ==> s[from..][k] == s[from + k];
    CountDigits(s[from..], b - from);
  }

  lemma NumberRead(s: string, a: nat, b: nat, v: int)
    requires NumberAt(s, a, b, v)
    ensures Stoi(s) == if -2147483648 <= v <= 2147483647 then Some(v) else None
  {
    var from := if s[a] == '-' || s[a] == '+' then a + 1 else a;
    CountSpaces(s, a);
    assert s[a..][1..] == s[a + 1..];
    DigitsUpTo(s, from, b);
    MagnitudeRead(s[from..], s[from..b], s[a] == '-', v);
  }

  lemma MagnitudeRead(t: string, d: string, negative: bool, v: int)
    requires d != [] && d == t[..DigitCount(t)] && v == if negative then -(Decimal(d) as int) else Decimal(d)
    ensures Magnitude(t, negative) == if -2147483648 <= v <= 2147483647 then Some(v) else None
  {
  }

  // ---------------------------------------------------------------------------
  // The decoder
  // ---------------------------------------------------------------------------

  /** A successful parse: the node, the position after it, and whether it read exactly the text it recorded. */
  datatype Parse = Failed | Parsed(node: Bendata, rest: nat, exact: bool)

  function Find(data: string, pos: nat, stop: char): (j: nat)
    requires pos <= |data|
    ensures pos <= j <= |data| && (j < |data| ==> data[j] == stop)
    ensures forall k :: pos <= k < j ==> data[k] != stop
    decreases |data| - pos
  {
    if pos == |data| || data[pos] == stop then pos else Find(data, pos + 1, stop)
  }

  /** `peek_skipws`: the position of the next character that is not a space. */
  function SkipSpaces(data: string, pos: nat): (j: nat)
    requires pos <= |data|
    ensures pos <= j <= |data| && (j < |data| ==> !IsSpace(data[j]))
    ensures j > pos ==> IsSpace(data[pos])
    decreases |data| - pos
  {
    if pos == |data| || !IsSpace(data[pos]) then pos else SkipSpaces(data, pos + 1)
  }

  function Repeat(c: char, n: nat): (s: string)
    ensures |s| == n
  {
    if n == 0 then "" else [c] + Repeat(c, n - 1)
  }

  /** The payload of a string: past the end of the input its last character is read over and over. */
  function Payload(data: string, start: nat, n: nat): (s: string)
    requires start <= |data| && data != []
    ensures |s| == n
  {
    if n <= |data| - start then data[start..start + n]
    else data[start..] + Repeat(data[|data| - 1], n - (|data| - start))
  }

  /** Character by character: what is there, then the last character over and over. */
  lemma PayloadAt(data: string, start: nat, n: nat, j: nat)
    requires start <= |data| && data != [] && j < n
    ensures Payload(data, start, n)[j] == if start + j < |data| then data[start + j] else data[|data| - 1]
  {
    if start + j >= |data| {
      RepeatAt(data[|data| - 1], n - (|data| - start), j - (|data| - start));
    }
  }

  lemma {:induction false} RepeatAt(c: char, n: nat, j: nat)
    requires j < n
    ensures Repeat(c, n)[j] == c
  {
    if j > 0 {
      RepeatAt(c, n - 1, j - 1);
    }
  }

  function ParseString(data: string, pos: nat): (r: Parse)
    requires pos <= |data|
    ensures r.Parsed? ==> pos < r.rest <= |data| && r.node.Str?
  {
    var j := Find(data, pos, ':');
    var size := data[pos..j];
    match Stoi(size)
    case None => Failed
    case Some(length) =>
      var start := if j < |data| then j + 1 else j;
      var n := if length > 0 then length else 0;
      var text := Payload(data, start, n);
      Parsed(Str(text, size + ":" + text),
             if n <= |data| - start then start + n else |data|,
             j < |data| && n <= |data| - start)
  }

  /** How far an extraction of n characters gets. */
  function Reach(data: string, start: nat, n: nat): (r: nat)
    requires start <= |data|
    ensures start <= r <= |data|
  {
    if n <= |data| - start then start + n else |data|
  }

  /** A string by its size text and the position behind the colon. */
  lemma StringFrom(data: string, pos: nat, size: string, start: nat)
    requires pos <= |data|
    requires var j := Find(data, pos, ':'); size == data[pos..j] && start == if j < |data| then j + 1 else j
    ensures Stoi(size).None? ==> ParseString(data, pos).Failed?
    ensures Stoi(size).Some? ==>
      (var n := if Stoi(size).value > 0 then Stoi(size).value else 0;
       var r := ParseString(data, pos);
       && pos < start && r.Parsed? && r.rest == Reach(data, start, n)
       && r.node == Str(Payload(data, start, n), size + ":" + Payload(data, start, n)))
  {
  }

  /**
   * A string fails exactly if what stands before the colon is no number. Otherwise it has as many characters as that
   * says, none for a negative size, taken from behind the colon and, past the end, repeating the last one.
   */
  lemma StringExactly(data: string, pos: nat, j: nat)
    requires pos <= j <= |data| && (forall k :: pos <= k < j ==> data[k] != ':') && (j < |data| ==> data[j] == ':')
    ensures ParseString(data, pos).Failed? <==> Stoi(data[pos..j]) == None
    ensures Stoi(data[pos..j]).Some? ==>
              var size, start := Stoi(data[pos..j]).value, if j < |data| then j + 1 else j;
              var r, n := ParseString(data, pos), if size > 0 then size else 0;
              && r.Parsed? && |r.node.text| == n && r.node.code == data[pos..j] + ":" + r.node.text
              && r.rest == (if start + n <= |data| then start + n else |data|)
              && forall k :: 0 <= k < n ==>
                   r.node.text[k] == if start + k < |data| then data[start + k] else data[|data| - 1]
  {
    var start := if j < |data| then j + 1 else j;
    StringFrom(data, pos, data[pos..j], start);
    if Stoi(data[pos..j]).Some? {
      var size := Stoi(data[pos..j]).value;
      PayloadIs(data, start, if size > 0 then size else 0);
    }
  }

  lemma PayloadIs(data: string, start: nat, n: nat)
    requires start <= |data| && data != []
    ensures forall k :: 0 <= k < n ==>
              Payload(data, start, n)[k] == if start + k < |data| then data[start + k] else data[|data| - 1]
  {
    forall k | 0 <= k < n
      ensures Payload(data, start, n)[k] == if start + k < |data| then data[start + k] else data[|data| - 1]
    {
      PayloadAt(data, start, n, k);
    }
  }

  function ParseInteger(data: string, pos: nat): (r: Parse)
    requires pos < |data|
    ensures r.Parsed? ==> pos < r.rest <= |data| && r.node.Num?
  {
    var j := Find(data, pos + 1, 'e');
    var text := data[pos + 1..j];
    match Stoi(text)
    case None => Failed
    case Some(v) =>
      Parsed(Num(v, "i" + ToString(v) + "e"), if j < |data| then j + 1 else j, j < |data| && text == ToString(v))
  }

  predicate At(data: string, pos: nat, c: char) {
    pos < |data| && data[pos] == c
  }

  /** `get_bendata_from_stream`. */
  function ParseAny(data: string, pos: nat): (r: Parse)
    requires pos <= |data|
    ensures r.Parsed? ==> pos < r.rest <= |data|
    decreases |data| - pos, 2
  {
    var p := SkipSpaces(data, pos);
    var r := ParseToken(data, p);
    if r.Parsed? then r.(exact := r.exact && p == pos) else r
  }

  /** The dispatch on the next character. */
  function ParseToken(data: string, p: nat): (r: Parse)
    requires p <= |data|
    ensures r.Parsed? ==> p < r.rest <= |data|
    decreases |data| - p, 1
  {
    if At(data, p, 'i') then ParseInteger(data, p)
    else if At(data, p, 'd') then ParseEntries(data, p + 1, map[], "d", true)
    else if At(data, p, 'l') then ParseItems(data, p + 1, [], "l", true)
    else ParseString(data, p)
  }

  /** The loop of `bendecode_list`, from any of its iterations. */
  function ParseItems(data: string, pos: nat, items: seq<Bendata>, code: string, exact: bool): (r: Parse)
    requires pos <= |data|
    ensures r.Parsed? ==> pos < r.rest <= |data| && r.node.Lis?
    decreases |data| - pos, 3
  {
    var p := SkipSpaces(data, pos);
    if At(data, p, 'e') then Parsed(Lis(items, code + "e"), p + 1, exact && p == pos)
    else
      match ParseAny(data, p)
      case Failed => Failed
      case Parsed(node, rest, e) => ParseItems(data, rest, items + [node], code + node.code, exact && e && p == pos)
  }

  /** The loop of `bendecode_dictionary`, from any of its iterations; a repeated key replaces the earlier value. */
  function ParseEntries(data: string, pos: nat, entries: map<string, Bendata>, code: string, exact: bool): (r: Parse)
    requires pos <= |data|
    ensures r.Parsed? ==> pos < r.rest <= |data| && r.node.Dic?
    decreases |data| - pos, 3
  {
    var p := SkipSpaces(data, pos);
    if At(data, p, 'e') then Parsed(Dic(entries, code + "e"), p + 1, exact && p == pos)
    else
      match ParseString(data, p)
      case Failed => Failed
      case Parsed(key, middle, e1) =>
        match ParseAny(data, middle)
        case Failed => Failed
        case Parsed(node, rest, e2) =>
          ParseEntries(data, rest, entries[key.text := node], code + (key.code + node.code),
                       exact && e1 && e2 && p == pos)
  }

  /** A key and its value, as read one after the other. */
  datatype Entry = Entry(key: Parse, value: Parse) {
    predicate Complete() {
      key.Parsed? && value.Parsed?
    }
  }

  function EntryAt(data: string, p: nat): (e: Entry)
    requires p <= |data|
    ensures e.Complete() ==> e.key.node.Str? && p < e.key.rest < e.value.rest <= |data|
  {
    var key := ParseString(data, p);
    Entry(key, if key.Parsed? then ParseAny(data, key.rest) else Failed)
  }

  /** One iteration of the dictionary loop. */
  lemma EntriesNext(data: string, from: nat, p: nat, entries: map<string, Bendata>, code: string, exact: bool)
    requires from <= |data| && p == SkipSpaces(data, from) && !At(data, p, 'e')
    ensures var e := EntryAt(data, p);
            ParseEntries(data, from, entries, code, exact) ==
              if !e.Complete() then Failed
              else ParseEntries(data, e.value.rest, entries[e.key.node.text := e.value.node],
                                code + (e.key.node.code + e.value.node.code),
                                exact && e.key.exact && e.value.exact && p == from)
  {
  }

  // ---------------------------------------------------------------------------
  // The encoder
  // ---------------------------------------------------------------------------

  datatype BenDictPair = BenDictPair(key: string, bencodedValue: string)

  function EncodeNum(value: int): string {
    "i" + ToString(value) + "e"
  }

  function EncodeStr(value: string): string {
    ToString(|value|) + ":" + value
  }

  function Concat(items: seq<string>): string {
    if items == [] then "" else items[0] + Concat(items[1..])
  }

  function EncodeToList(items: seq<string>): string {
    "l" + Concat(items) + "e"
  }

  /** The text of a dictionary whose pairs are already in order. */
  function DictText(pairs: seq<BenDictPair>): string {
    "d" + PairsText(pairs) + "e"
  }

  function PairsText(pairs: seq<BenDictPair>): string {
    if pairs == [] then "" else EncodeStr(pairs[0].key) + pairs[0].bencodedValue + PairsText(pairs[1..])
  }

  // ---------------------------------------------------------------------------
  // Key order
  // ---------------------------------------------------------------------------

  /** `std::string`'s order. */
  predicate Less(a: string, b: string) {
    b != [] && (a == [] || a[0] < b[0] || (a[0] == b[0] && Less(a[1..], b[1..])))
  }

  /** The k characters before the first difference are the same, and there the first text ends or is smaller. */
  predicate DiffersAt(a: string, b: string, k: nat) {
    && k <= |a| && k < |b| && a[..k] == b[..k]
    && (k == |a| || a[k] < b[k])
  }

  ghost predicate Precedes(a: string, b: string) {
    exists k: nat :: DiffersAt(a, b, k)
  }

  /** The order is the lexicographic one. */
  lemma LessIsLexicographic(a: string, b: string)
    ensures Less(a, b) <==> Precedes(a, b)
  {
    if Less(a, b) {
      var k := LessDiffers(a, b);
    }
    if Precedes(a, b) {
      var k: nat :| DiffersAt(a, b, k);
      DiffersLess(a, b, k);
    }
  }

  lemma {:induction false} LessDiffers(a: string, b: string) returns (k: nat)
    requires Less(a, b)
    ensures DiffersAt(a, b, k)
    decreases |a|
  {
    k := 0;
    if a != [] && a[0] == b[0] {
      k := LessDiffers(a[1..], b[1..]);
      assert a[..k + 1] == [a[0]] + a[1..][..k] && b[..k + 1] == [b[0]] + b[1..][..k];
      k := k + 1;
    }
  }

  lemma {:induction false} DiffersLess(a: string, b: string, k: nat)
    requires DiffersAt(a, b, k)
    ensures Less(a, b)
    decreases k
  {
    if k > 0 {
      assert a[..k][0] == a[0] && b[..k][0] == b[0];
      assert a[1..][..k - 1] == a[..k][1..] && b[1..][..k - 1] == b[..k][1..];
      DiffersLess(a[1..], b[1..], k - 1);
    }
  }

  lemma {:induction false} LessTrichotomy(a: string, b: string)
    ensures Less(a, b) || a == b || Less(b, a)
    ensures !(Less(a, b) && Less(b, a)) && (a == b ==> !Less(a, b))
    decreases |a|
  {
    if a != [] && b != [] {
      LessTrichotomy(a[1..], b[1..]);
      assert a[0] == b[0] && a[1..] == b[1..] ==> a == b by {
        assert a == [a[0]] + a[1..] && b == [b[0]] + b[1..];
      }
    }
  }

  lemma {:induction false} LessTransitive(a: string, b: string, c: string)
    requires Less(a, b) && Less(b, c)
    ensures Less(a, c)
    decreases |a|
  {
    if a != [] && a[0] == b[0] == c[0] {
      LessTransitive(a[1..], b[1..], c[1..]);
    }
  }

  ghost predicate Sorted(pairs: seq<BenDictPair>) {
    forall i, j :: 0 <= i < j < |pairs| ==> !Less(pairs[j].key, pairs[i].key)
  }

  /** Each key is at most the next ones, in the order of texts. */
  ghost predicate Ascending(pairs: seq<BenDictPair>) {
    forall i, j :: 0 <= i < j < |pairs| ==> pairs[i].key == pairs[j].key || Precedes(pairs[i].key, pairs[j].key)
  }

  lemma SortedAscends(pairs: seq<BenDictPair>)
    requires Sorted(pairs)
    ensures Ascending(pairs)
  {
    forall i, j | 0 <= i < j < |pairs|
      ensures pairs[i].key == pairs[j].key || Precedes(pairs[i].key, pairs[j].key)
    {
      LessTrichotomy(pairs[i].key, pairs[j].key);
      LessIsLexicographic(pairs[i].key, pairs[j].key);
    }
  }

  ghost predicate DistinctKeys(pairs: seq<BenDictPair>) {
    forall i, j :: 0 <= i < j < |pairs| ==> pairs[i].key != pairs[j].key
  }

  /** What `std::sort` promises. */
  ghost predicate SortOf(sorted: seq<BenDictPair>, items: seq<BenDictPair>) {
    Sorted(sorted) && multiset(sorted) == multiset(items)
  }

  function Insert(x: BenDictPair, s: seq<BenDictPair>): (r: seq<BenDictPair>)
    ensures |r| == |s| + 1
  {
    if s == [] || !Less(s[0].key, x.key) then [x] + s else [s[0]] + Insert(x, s[1..])
  }

  function SortPairs(s: seq<BenDictPair>): (r: seq<BenDictPair>)
    ensures |r| == |s|
  {
    if s == [] then [] else Insert(s[0], SortPairs(s[1..]))
  }

  lemma {:induction false} InsertBag(x: BenDictPair, s: seq<BenDictPair>)
    ensures multiset(Insert(x, s)) == multiset(s) + multiset{x}
  {
    if s != [] {
      assert s == [s[0]] + s[1..];
      if Less(s[0].key, x.key) {
        InsertBag(x, s[1..]);
      }
    }
  }

  lemma {:induction false} InsertKeeps(x: BenDictPair, s: seq<BenDictPair>)
    requires Sorted(s)
    ensures Sorted(Insert(x, s))
  {
    if s != [] {
      if Less(s[0].key, x.key) {
        InsertKeeps(x, s[1..]);
        InsertAbove(x, s);
      } else {
        forall j | 0 <= j < |s|
          ensures !Less(s[j].key, x.key)
        {
          NotLessChain(s, x, j);
        }
      }
    }
  }

  /** Nothing inserted behind the head comes before it. */
  lemma InsertAbove(x: BenDictPair, s: seq<BenDictPair>)
    requires Sorted(s) && s != [] && Less(s[0].key, x.key)
    ensures forall r :: r in Insert(x, s[1..]) ==> !Less(r.key, s[0].key)
  {
    InsertBag(x, s[1..]);
    LessTrichotomy(s[0].key, x.key);
    forall r | r in Insert(x, s[1..])
      ensures !Less(r.key, s[0].key)
    {
      assert r in multiset(Insert(x, s[1..]));
    }
  }

  lemma NotLessChain(s: seq<BenDictPair>, x: BenDictPair, j: nat)
    requires Sorted(s) && j < |s| && !Less(s[0].key, x.key)
    ensures !Less(s[j].key, x.key)
  {
    if Less(s[j].key, x.key) {
      LessTrichotomy(s[0].key, s[j].key);
      if Less(s[0].key, s[j].key) {
        LessTransitive(s[0].key, s[j].key, x.key);
      }
    }
  }

  lemma {:induction false} SortPairsSorts(s: seq<BenDictPair>)
    ensures SortOf(SortPairs(s), s) && Ascending(SortPairs(s))
  {
    if s != [] {
      SortPairsSorts(s[1..]);
      InsertKeeps(s[0], SortPairs(s[1..]));
      InsertBag(s[0], SortPairs(s[1..]));
      assert s == [s[0]] + s[1..];
    }
    SortedAscends(SortPairs(s));
  }

  lemma SortedHead(a: seq<BenDictPair>, b: seq<BenDictPair>)
    requires Sorted(a) && Sorted(b) && multiset(a) == multiset(b) && DistinctKeys(a) && a != [] && b != []
    ensures a[0] == b[0]
  {
    assert a[0] in multiset(b) && b[0] in multiset(a);
    var i :| 0 <= i < |b| && b[i] == a[0];
    var j :| 0 <= j < |a| && a[j] == b[0];
    LessTrichotomy(a[0].key, b[0].key);
  }

  /** With distinct keys there is only one sorted arrangement, so it does not matter how it was found. */
  lemma {:induction false} SortUnique(a: seq<BenDictPair>, b: seq<BenDictPair>)
    requires Sorted(a) && Sorted(b) && multiset(a) == multiset(b) && DistinctKeys(a)
    ensures a == b
    decreases |a|
  {
    assert |a| == |multiset(a)| == |multiset(b)| == |b|;
    if a != [] {
      SortedHead(a, b);
      assert a == [a[0]] + a[1..] && b == [b[0]] + b[1..];
      TailBag(a, b);
      SortUnique(a[1..], b[1..]);
    }
  }

  lemma CountedTwice(b: seq<BenDictPair>, i: nat, j: nat)
    requires i < j < |b| && b[i] == b[j]
    ensures multiset(b)[b[i]] >= 2
  {
    assert b == b[..j] + b[j..] && b[..j][i] == b[i] && b[j..][0] == b[i];
  }

  lemma CountedOnce(a: seq<BenDictPair>, p: nat)
    requires p < |a| && DistinctKeys(a)
    ensures multiset(a)[a[p]] == 1
  {
    assert a == a[..p] + [a[p]] + a[p + 1..];
    assert a[p] !in a[..p] && a[p] !in a[p + 1..];
  }

  /** Distinct keys stay distinct in any arrangement. */
  lemma DistinctInAnyOrder(a: seq<BenDictPair>, b: seq<BenDictPair>)
    requires multiset(a) == multiset(b) && DistinctKeys(a)
    ensures DistinctKeys(b)
  {
    forall i, j | 0 <= i < j < |b|
      ensures b[i].key != b[j].key
    {
      assert b[i] in multiset(a) && b[j] in multiset(a);
      var p :| 0 <= p < |a| && a[p] == b[i];
      var q :| 0 <= q < |a| && a[q] == b[j];
      if p == q {
        CountedTwice(b, i, j);
        CountedOnce(a, p);
      }
    }
  }

  lemma TailBag(a: seq<BenDictPair>, b: seq<BenDictPair>)
    requires a != [] && b != [] && a[0] == b[0] && multiset(a) == multiset(b)
    ensures multiset(a[1..]) == multiset(b[1..])
  {
    assert a == [a[0]] + a[1..] && b == [b[0]] + b[1..];
    assert multiset(a[1..]) == multiset(a) - multiset{a[0]};
    assert multiset(b[1..]) == multiset(b) - multiset{b[0]};
  }
}
