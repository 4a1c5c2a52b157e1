/** The decoder as it runs: a stream consumed character by character, and loops that append to the node being built;
    and the encoder's two loops. */
module BencodeStream {
  import opened Bencode

  lemma {:induction false} RepeatMore(c: char, n: nat)
    ensures Repeat(c, n + 1) == Repeat(c, n) + [c]
  {
    if n > 0 {
      RepeatMore(c, n - 1);
    }
  }

  lemma OneFurther(data: string, from: nat, to: nat)
    requires from <= to < |data|
    ensures data[from..to + 1] == data[from..to] + [data[to]]
  {
  }

  /** One more payload character: the next one, or the last one again. */
  lemma PayloadMore(data: string, start: nat, n: nat)
    requires start <= |data| && data != []
    ensures Payload(data, start, n + 1)
         == Payload(data, start, n) + [data[if start + n < |data| then start + n else |data| - 1]]
  {
    if start + n >= |data| {
      RepeatMore(data[|data| - 1], n - (|data| - start));
    }
  }

  /** An input stream with white space not skipped by extraction. */
  class InputStream {
    const data: string
    var pos: nat

    ghost predicate Valid()
      reads this
    {
      pos <= |data|
    }

    constructor (data: string)
      ensures Valid() && this.data == data && pos == 0
    {
      this.data, pos := data, 0;
    }

    /** `of >> c`: at the end of the input the extraction fails and c keeps its value. */
    method Extract(c: char) returns (ok: bool, read: char)
      requires Valid()
      modifies this
      ensures Valid()
      ensures ok == (old(pos) < |data|)
      ensures ok ==> pos == old(pos) + 1 && read == data[old(pos)]
      ensures !ok ==> pos == old(pos) && read == c
    {
      ok, read := pos < |data|, c;
      if ok {
        read := data[pos];
        pos := pos + 1;
      }
    }

    method Peek() returns (c: Option<char>)
      requires Valid()
      ensures c == if pos < |data| then Some(data[pos]) else None
    {
      c := if pos < |data| then Some(data[pos]) else None;
    }

    method PeekSkipSpaces() returns (c: Option<char>)
      requires Valid()
      modifies this
      ensures Valid() && pos == SkipSpaces(data, old(pos))
      ensures c == if pos < |data| then Some(data[pos]) else None
    {
      c := Peek();
      while c.Some? && IsSpace(c.value)
        invariant Valid() && SkipSpaces(data, pos) == SkipSpaces(data, old(pos))
        invariant c == if pos < |data| then Some(data[pos]) else None
        decreases |data| - pos
      {
        var _, _ := Extract(c.value);
        c := Peek();
      }
    }

    /** Extracts n characters; past the end the last one extracted is taken again. */
    method ExtractCount(n: int, last: char) returns (text: string)
      requires Valid() && 0 < pos && last == data[pos - 1]
      modifies this
      ensures Valid()
      ensures var k := if n > 0 then n else 0;
              text == Payload(data, old(pos), k) && pos == Reach(data, old(pos), k)
    {
      var left, c, ok := n, last, true;
      ghost var k := 0;
      text := "";
      while left > 0
        invariant Valid() && 0 < pos && c == data[pos - 1]
        invariant left == n - k && (k > 0 ==> left >= 0)
        invariant text == Payload(data, old(pos), k) && pos == Reach(data, old(pos), k)
      {
        PayloadMore(data, old(pos), k);
        left, k := left - 1, k + 1;
        ok, c := Extract(c);
        text := text + [c];
      }
    }

    /** Extracts up to a delimiter, which is extracted too but not returned; c is the last character extracted. */
    method ExtractUntil(stop: char) returns (text: string, c: char)
      requires Valid()
      modifies this
      ensures Valid()
      ensures var j := Find(data, old(pos), stop);
              text == data[old(pos)..j] && pos == (if j < |data| then j + 1 else j)
      ensures pos > old(pos) ==> c == data[pos - 1]
    {
      text, c := "", '\0';
      var ok: bool;
      ok, c := Extract(c);
      while ok && c != stop
        invariant Valid() && (ok ==> old(pos) < pos) && (pos > old(pos) ==> c == data[pos - 1])
        invariant !ok ==> pos == |data|
        invariant var end := if ok then pos - 1 else pos;
                  old(pos) <= end && text == data[old(pos)..end] && Find(data, end, stop) == Find(data, old(pos), stop)
        decreases |data| - pos, ok
      {
        OneFurther(data, old(pos), pos - 1);
        text := text + [c];
        ok, c := Extract(c);
      }
    }
  }

  /** What a decoding function owes: success exactly when the parse succeeds, with its node and its end. */
  ghost predicate Delivers(ok: bool, node: Bendata, pos: nat, r: Parse) {
    ok == r.Parsed? && (ok ==> node == r.node && pos == r.rest)
  }

  method DecodeString(of: InputStream) returns (ok: bool, node: Bendata)
    requires of.Valid()
    modifies of
    ensures of.Valid()
    ensures Delivers(ok, node, of.pos, ParseString(of.data, old(of.pos)))
  {
    ghost var data, from := of.data, of.pos;
    var size, c := of.ExtractUntil(':');
    StringFrom(data, from, size, of.pos);
    node := Str("", "");
    ok := Stoi(size).Some?;
    if ok {
      var result := of.ExtractCount(Stoi(size).value, c);
      node := Str(result, size + ":" + result);
    }
  }

  /** One iteration of the list loop. */
  lemma ItemsNext(data: string, from: nat, p: nat, items: seq<Bendata>, code: string, exact: bool)
    requires from <= |data| && p == SkipSpaces(data, from) && !At(data, p, 'e')
    ensures ParseItems(data, from, items, code, exact)
         == match ParseAny(data, p) {
              case Failed => Failed
              case Parsed(node, rest, e) =>
                ParseItems(data, rest, items + [node], code + node.code, exact && e && p == from)
            }
  {
  }

  method DecodeInteger(of: InputStream) returns (ok: bool, node: Bendata)
    requires of.Valid() && of.pos < |of.data|
    modifies of
    ensures of.Valid()
    ensures Delivers(ok, node, of.pos, ParseInteger(of.data, old(of.pos)))
  {
    var _, _ := of.Extract('i');
    var text, _ := of.ExtractUntil('e');
    ghost var j := Find(of.data, old(of.pos) + 1, 'e');
    assert text == of.data[old(of.pos) + 1..j] && of.pos == if j < |of.data| then j + 1 else j;
    node := Num(0, "");
    ok := Stoi(text).Some?;
    if ok {
      var value := Stoi(text).value;
      node := Num(value, "i" + ToString(value) + "e");
    }
  }

  /** `get_bendata_from_stream`. */
  method DecodeAny(of: InputStream) returns (ok: bool, node: Bendata)
    requires of.Valid()
    modifies of
    ensures of.Valid()
    ensures Delivers(ok, node, of.pos, ParseAny(of.data, old(of.pos)))
    decreases |of.data| - of.pos, 1
  {
    var next := of.PeekSkipSpaces();
    match next
    case Some('i') => ok, node := DecodeInteger(of);
    case Some('d') => ok, node := DecodeDictionary(of);
    case Some('l') => ok, node := DecodeList(of);
    case _ => ok, node := DecodeString(of);
  }

  method DecodeList(of: InputStream) returns (ok: bool, node: Bendata)
    requires of.Valid() && At(of.data, of.pos, 'l')
    modifies of
    ensures of.Valid()
    ensures Delivers(ok, node, of.pos, ParseItems(of.data, old(of.pos) + 1, [], "l", true))
    decreases |of.data| - of.pos, 0
  {
    node := Lis([], "");
    var items: seq<Bendata>, code := [], "";
    var _, c := of.Extract('l');
    code := [c];
    ghost var from, exact, whole := of.pos, true, ParseItems(of.data, of.pos, [], "l", true);
    var next := of.PeekSkipSpaces();
    while next != Some('e')
      invariant of.Valid() && old(of.pos) < from <= of.pos == SkipSpaces(of.data, from)
      invariant next == if of.pos < |of.data| then Some(of.data[of.pos]) else None
      invariant ParseItems(of.data, from, items, code, exact) == whole
      decreases |of.data| - of.pos
    {
      var child;
      ghost var p := of.pos;
      ItemsNext(of.data, from, p, items, code, exact);
      ok, child := DecodeAny(of);
      if !ok {
        return;
      }
      items := items + [child];
      code := code + child.code;
      exact := exact && ParseAny(of.data, p).exact && p == from;
      from := of.pos;
      next := of.PeekSkipSpaces();
    }
    var _, e := of.Extract('e');
    ok, node := true, Lis(items, code + [e]);
  }

  /** The key and the value of one iteration of `bendecode_dictionary`. */
  method DecodeEntry(of: InputStream) returns (ok: bool, key: Bendata, value: Bendata)
    requires of.Valid()
    modifies of
    ensures of.Valid()
    ensures var e := EntryAt(of.data, old(of.pos));
            ok == e.Complete() && (ok ==> key == e.key.node && value == e.value.node && of.pos == e.value.rest)
    decreases |of.data| - of.pos, 2
  {
    value := Str("", "");
    ok, key := DecodeString(of);
    if ok {
      ok, value := DecodeAny(of);
    }
  }

  lemma EntriesClosed(data: string, from: nat, p: nat, entries: map<string, Bendata>, code: string, exact: bool)
    requires from <= |data| && p == SkipSpaces(data, from) && At(data, p, 'e')
    ensures ParseEntries(data, from, entries, code, exact)
         == Parsed(Dic(entries, code + "e"), p + 1, exact && p == from)
  {
  }

  method DecodeDictionary(of: InputStream) returns (ok: bool, node: Bendata)
    requires of.Valid() && At(of.data, of.pos, 'd')
    modifies of
    ensures of.Valid()
    ensures Delivers(ok, node, of.pos, ParseEntries(of.data, old(of.pos) + 1, map[], "d", true))
    decreases |of.data| - of.pos, 0
  {
    node := Dic(map[], "");
    var entries: map<string, Bendata>, code := map[], "";
    var _, c := of.Extract('d');
    code := [c];
    ghost var from, exact, whole := of.pos, true, ParseEntries(of.data, of.pos, map[], "d", true);
    var next := of.PeekSkipSpaces();
    while next != Some('e')
      invariant of.Valid() && old(of.pos) < from <= of.pos && of.pos == SkipSpaces(of.data, from)
      invariant next == if of.pos < |of.data| then Some(of.data[of.pos]) else None
      invariant ParseEntries(of.data, from, entries, code, exact) == whole
      decreases |of.data| - of.pos
    {
      var key, value;
      ghost var e := EntryAt(of.data, of.pos);
      EntriesNext(of.data, from, of.pos, entries, code, exact);
      exact := exact && e.Complete() && e.key.exact && e.value.exact && of.pos == from;
      ok, key, value := DecodeEntry(of);
      if !ok {
        return;
      }
      entries := entries[key.text := value];
      code := code + (key.code + value.code);
      from := of.pos;
      next := of.PeekSkipSpaces();
    }
    EntriesClosed(of.data, from, of.pos, entries, code, exact);
    var _, e := of.Extract('e');
    ok, node := true, Dic(entries, code + [e]);
  }

  // ---------------------------------------------------------------------------
  // The encoder
  // ---------------------------------------------------------------------------

  lemma {:induction false} ConcatMore(items: seq<string>, k: nat)
    requires k < |items|
    ensures Concat(items[..k + 1]) == Concat(items[..k]) + items[k]
  {
    if k > 0 {
      ConcatMore(items[1..], k - 1);
      assert items[1..][..k] == items[..k + 1][1..] && items[1..][..k - 1] == items[..k][1..];
    } else {
      assert items[..1][1..] == [];
    }
  }

  method EncodeList(items: seq<string>) returns (text: string)
    ensures text == EncodeToList(items)
  {
    text := "l";
    for i := 0 to |items|
      invariant text == "l" + Concat(items[..i])
    {
      ConcatMore(items, i);
      text := text + items[i];
    }
    assert items[..|items|] == items;
    text := text + "e";
  }

  lemma {:induction false} PairsMore(pairs: seq<BenDictPair>, k: nat)
    requires k < |pairs|
    ensures PairsText(pairs[..k + 1]) == PairsText(pairs[..k]) + (EncodeStr(pairs[k].key) + pairs[k].bencodedValue)
  {
    if k > 0 {
      PairsMore(pairs[1..], k - 1);
      assert pairs[1..][..k] == pairs[..k + 1][1..] && pairs[1..][..k - 1] == pairs[..k][1..];
    } else {
      assert pairs[..1][1..] == [];
    }
  }

  /** `sorted` is whatever arrangement the library's sort left the pairs in; with distinct keys the text does not
      depend on which one, nor on the order the pairs came in. */
  method EncodeDict(items: seq<BenDictPair>, sorted: seq<BenDictPair>) returns (text: string)
    requires SortOf(sorted, items)
    ensures text == DictText(sorted) && Ascending(sorted)
    ensures DistinctKeys(items) ==> text == DictText(SortPairs(items))
  {
    text := "d";
    for i := 0 to |sorted|
      invariant text == "d" + PairsText(sorted[..i])
    {
      PairsMore(sorted, i);
      text := text + (EncodeStr(sorted[i].key) + sorted[i].bencodedValue);
    }
    assert sorted[..|sorted|] == sorted;
    text := text + "e";
    Arranged(items, sorted);
  }

  lemma Arranged(items: seq<BenDictPair>, sorted: seq<BenDictPair>)
    requires SortOf(sorted, items)
    ensures Ascending(sorted) && (DistinctKeys(items) ==> sorted == SortPairs(items))
  {
    SortedAscends(sorted);
    if DistinctKeys(items) {
      SortPairsSorts(items);
      DistinctInAnyOrder(items, sorted);
      SortUnique(sorted, SortPairs(items));
    }
  }
}
