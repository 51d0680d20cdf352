/**
 GGUF metadata written out, and read back by the bounded reader.
 */
module GgufWriter {
  import opened Options
  import opened Gguf

  datatype Elem = ElemText(bytes: Bytes) | ElemBits(n: nat)

  datatype Stored =
    | StoredText(bytes: Bytes)
    | StoredInt(tag: nat, v: int)
    | StoredFlag(n: byte)
    | StoredFloat(tag: nat, bits: nat)
    | StoredArray(tag: nat, elems: seq<Elem>)

  datatype Pair = Pair(key: Bytes, value: Stored)

  /** The types of the format, by number: how many bytes each takes, which are integers
      without and with a sign, and which are floating-point. 8 is text, 9 an array. */
  const SIZES: map<nat, nat> := map[0 := 1, 1 := 1, 2 := 2, 3 := 2, 4 := 4, 5 := 4, 6 := 4, 7 := 1, 10 := 8, 11 := 8,
                                    12 := 8]
  const UNSIGNED: set<nat> := {0, 2, 4, 10}
  const SIGNED: set<nat> := {1, 3, 5, 11}
  const FLOATS: set<nat> := {6, 12}

  function Size(tag: nat): nat {
    if tag in SIZES then SIZES[tag] else 0
  }

  lemma SizeIsWidth(tag: nat)
    ensures Size(tag) == Width(tag)
  {
  }

  predicate Short(s: Bytes) {
    |s| < Power256(8)
  }

  predicate ElemOk(tag: nat, e: Elem) {
    match e
    case ElemText(bytes) => tag == 8 && Short(bytes)
    case ElemBits(n) => Size(tag) > 0 && n < Power256(Size(tag))
  }

  predicate StoredOk(v: Stored) {
    match v
    case StoredText(bytes) => Short(bytes)
    case StoredInt(tag, v) =>
      || (tag in UNSIGNED && 0 <= v < Power256(Size(tag)))
      || (tag in SIGNED && 0 <= 2 * v + Power256(Size(tag)) < 2 * Power256(Size(tag)))
    case StoredFlag(_) => true
    case StoredFloat(tag, bits) => tag in FLOATS && bits < Power256(Size(tag)) && IsFinite(tag, bits)
    case StoredArray(tag, elems) =>
      tag < Power256(4) && |elems| < Power256(8) && forall k :: 0 <= k < |elems| ==> ElemOk(tag, elems[k])
  }

  predicate PairsOk(ps: seq<Pair>) {
    forall k :: 0 <= k < |ps| ==> Short(ps[k].key) && StoredOk(ps[k].value)
  }

  function WriteNumber(n: nat, k: nat): Bytes {
    if k == 0 then [] else [n % 256] + WriteNumber(n / 256, k - 1)
  }

  function WriteString(s: Bytes): Bytes {
    WriteNumber(|s|, 8) + s
  }

  function WriteElem(tag: nat, e: Elem): Bytes {
    match e
    case ElemText(bytes) => WriteString(bytes)
    case ElemBits(n) => WriteNumber(n, Size(tag))
  }

  function WriteElems(tag: nat, es: seq<Elem>): Bytes {
    if es == [] then [] else WriteElem(tag, es[0]) + WriteElems(tag, es[1..])
  }

  function TagOf(v: Stored): nat {
    match v
    case StoredText(_) => 8
    case StoredInt(tag, _) => tag
    case StoredFlag(_) => 7
    case StoredFloat(tag, _) => tag
    case StoredArray(_, _) => 9
  }

  /** Two's complement. */
  function Bits(v: int, k: nat): nat
    requires 0 <= v + Power256(k)
  {
    if v < 0 then v + Power256(k) else v
  }

  function WriteStored(v: Stored): Bytes
    requires StoredOk(v)
  {
    match v
    case StoredText(bytes) => WriteString(bytes)
    case StoredInt(tag, v) => WriteNumber(Bits(v, Size(tag)), Size(tag))
    case StoredFlag(n) => [n]
    case StoredFloat(tag, bits) => WriteNumber(bits, Size(tag))
    case StoredArray(tag, elems) => WriteNumber(tag, 4) + (WriteNumber(|elems|, 8) + WriteElems(tag, elems))
  }

  function WritePair(p: Pair): Bytes
    requires StoredOk(p.value)
  {
    WriteString(p.key) + (WriteNumber(TagOf(p.value), 4) + WriteStored(p.value))
  }

  function WritePairs(ps: seq<Pair>): Bytes
    requires PairsOk(ps)
  {
    if ps == [] then [] else WritePair(ps[0]) + WritePairs(ps[1..])
  }

  function WriteFile(version: nat, tensors: nat, count: nat, ps: seq<Pair>): Bytes
    requires PairsOk(ps)
  {
    Ascii("GGUF") + (WriteNumber(version, 4) + (WriteNumber(tensors, 8) + (WriteNumber(count, 8) + WritePairs(ps))))
  }

  /** What is to be known of a stored value. */
  function Meaning(v: Stored): Value {
    match v
    case StoredText(bytes) => Text(bytes)
    case StoredInt(_, v) => Number(v)
    case StoredFlag(n) => Truth(n == 1)
    case StoredFloat(_, bits) => Float(bits)
    case StoredArray(_, _) => Array
  }

  /** The family is the last architecture given as text. */
  function FamilyIn(ps: seq<Pair>): Option<Bytes> {
    if ps == [] then None
    else
      var p := ps[|ps| - 1];
      if p.key == Ascii("general.architecture") && p.value.StoredText? then Some(p.value.bytes)
      else FamilyIn(ps[..|ps| - 1])
  }

  /** The context length is the last positive integer under a key that ends so. */
  function ContextIn(ps: seq<Pair>): Option<int> {
    if ps == [] then None
    else
      var p := ps[|ps| - 1];
      if EndsWith(p.key, Ascii(".context_length")) && p.value.StoredInt? && p.value.v > 0 then Some(p.value.v)
      else ContextIn(ps[..|ps| - 1])
  }

  function Known(ps: seq<Pair>): Fields {
    Fields(FamilyIn(ps), ContextIn(ps))
  }

  /** How many pairs are read: until both fields are known. */
  function Enough(ps: seq<Pair>, k: nat): (n: nat)
    requires k <= |ps|
    ensures k <= n <= |ps| && (n < |ps| ==> Full(Known(ps[..n])))
    ensures forall j :: k <= j < n ==> !Full(Known(ps[..j]))
    decreases |ps| - k
  {
    if k == |ps| || Full(Known(ps[..k])) then k else Enough(ps, k + 1)
  }

  /** The fields, pair by pair, as the reader takes them. */
  function FieldsOf(ps: seq<Pair>, acc: Fields): Fields {
    if ps == [] || Full(acc) then acc else FieldsOf(ps[1..], Capture(acc, ps[0].key, Meaning(ps[0].value)))
  }

  lemma NotBoth(key: Bytes)
    requires key == Ascii("general.architecture")
    ensures !EndsWith(key, Ascii(".context_length"))
  {
    var suffix := Ascii(".context_length");
    assert key[|key| - |suffix|..][0] == key[5] == 'a' as int && suffix[0] == '.' as int;
  }

  lemma OneMorePair(ps: seq<Pair>, p: Pair)
    ensures Known(ps + [p]) == Capture(Known(ps), p.key, Meaning(p.value))
  {
    var all := ps + [p];
    assert all[..|all| - 1] == ps && all[|all| - 1] == p;
    if p.key == Ascii("general.architecture") {
      NotBoth(p.key);
    }
    hide EndsWith, Ascii;
  }

  lemma {:induction false} FieldsAre(ps: seq<Pair>, k: nat)
    requires k <= |ps|
    ensures FieldsOf(ps[k..], Known(ps[..k])) == Known(ps[..Enough(ps, k)])
    decreases |ps| - k
  {
    hide Known, Capture;
    if k < |ps| && !Full(Known(ps[..k])) {
      OneMorePair(ps[..k], ps[k]);
      assert ps[..k] + [ps[k]] == ps[..k + 1] && ps[k..][1..] == ps[k + 1..] && ps[k..][0] == ps[k];
      FieldsAre(ps, k + 1);
    } else {
      assert k == |ps| ==> ps[k..] == [];
    }
  }

  /** Both fields are known after the pairs read exactly if they are in the file. */
  lemma {:induction false} EnoughIsFull(ps: seq<Pair>, k: nat)
    requires k <= |ps| && Full(Known(ps))
    ensures Full(Known(ps[..Enough(ps, k)]))
    decreases |ps| - k
  {
    hide Known;
    if k == |ps| {
      assert ps[..k] == ps;
    } else if !Full(Known(ps[..k])) {
      EnoughIsFull(ps, k + 1);
    }
  }

  // ---------------------------------------------------------------------
  // Reading what was written, whatever follows it
  // ---------------------------------------------------------------------

  lemma {:induction false} LittleOfWritten(n: nat, k: nat)
    requires n < Power256(k)
    ensures |WriteNumber(n, k)| == k && Little(WriteNumber(n, k)) == n
  {
    if k > 0 {
      assert n / 256 < Power256(k - 1);
      LittleOfWritten(n / 256, k - 1);
      assert WriteNumber(n, k)[1..] == WriteNumber(n / 256, k - 1);
    }
  }

  lemma NumberComesBack(n: nat, k: nat, tail: Bytes)
    requires n < Power256(k)
    ensures |WriteNumber(n, k)| == k && ReadNumber(WriteNumber(n, k) + tail, k) == Read(n, tail)
  {
    LittleOfWritten(n, k);
    var w := WriteNumber(n, k);
    hide WriteNumber, Little;
    assert (w + tail)[..k] == w && (w + tail)[k..] == tail;
  }

  lemma StringComesBack(s: Bytes, tail: Bytes)
    requires Short(s)
    ensures ReadString(WriteString(s) + tail) == Read(s, tail)
  {
    NumberComesBack(|s|, 8, s + tail);
    assert WriteString(s) + tail == WriteNumber(|s|, 8) + (s + tail);
    hide WriteNumber, ReadNumber, WriteString;
    assert (s + tail)[..|s|] == s && (s + tail)[|s|..] == tail;
  }

  lemma ElemIsSkipped(tag: nat, e: Elem, tail: Bytes)
    requires ElemOk(tag, e)
    ensures SkipElem(WriteElem(tag, e) + tail, tag) == Read((), tail)
  {
    match e
    case ElemText(bytes) =>
      StringComesBack(bytes, tail);
    case ElemBits(n) =>
      SizeIsWidth(tag);
      NumberComesBack(n, Width(tag), tail);
      hide WriteNumber, ReadNumber, Size;
      assert (WriteNumber(n, Width(tag)) + tail)[Width(tag)..] == tail;
  }

  lemma {:induction false} ElemsAreSkipped(tag: nat, es: seq<Elem>, tail: Bytes)
    requires forall k :: 0 <= k < |es| ==> ElemOk(tag, es[k])
    ensures SkipArray(WriteElems(tag, es) + tail, tag, |es|) == Read(Array, tail)
  {
    hide WriteElem, SkipElem, ElemOk;
    if es == [] {
      assert WriteElems(tag, es) + tail == tail;
    } else {
      var rest := WriteElems(tag, es[1..]) + tail;
      assert WriteElems(tag, es) + tail == WriteElem(tag, es[0]) + rest;
      ElemIsSkipped(tag, es[0], rest);
      ElemsAreSkipped(tag, es[1..], tail);
    }
  }

  /** A number in two's complement is read with its sign. */
  lemma SignedComesBack(tag: nat, v: int)
    requires StoredOk(StoredInt(tag, v))
    ensures var n := Bits(v, Size(tag));
            && Width(tag) == Size(tag) > 0 && n < Power256(Width(tag))
            && NumberOf(tag, n) == Number(v) && IsFinite(tag, n) && tag != STRING && tag != ARRAY
  {
    SizeIsWidth(tag);
    hide Power256;
  }

  lemma FlagComesBack(n: byte, tail: Bytes)
    ensures ReadTyped(7, [n] + tail) == Read(Truth(n == 1), tail)
  {
    assert Power256(1) == 256 by {
      assert Power256(0) == 1;
    }
    var data := [n] + tail;
    assert data[..1] == [n] && data[1..] == tail;
    assert Little([n]) == n + 256 * Little([n][1..]) && Little([]) == 0;
    hide Little, Power256;
  }

  lemma StoredComesBack(v: Stored, tail: Bytes)
    requires StoredOk(v)
    ensures ReadTyped(TagOf(v), WriteStored(v) + tail) == Read(Meaning(v), tail)
  {
    hide WriteNumber, ReadNumber, WriteString, ReadString, WriteElems, SkipArray;
    match v
    case StoredText(bytes) => StringComesBack(bytes, tail);
    case StoredInt(tag, v) =>
      SignedComesBack(tag, v);
      hide IsFinite, NumberOf, Bits, Size;
      NumberComesBack(Bits(v, Size(tag)), Width(tag), tail);
    case StoredFlag(n) =>
      FlagComesBack(n, tail);
    case StoredFloat(tag, bits) =>
      SizeIsWidth(tag);
      hide IsFinite, Size;
      NumberComesBack(bits, Width(tag), tail);
    case StoredArray(tag, elems) =>
      var rest := WriteElems(tag, elems) + tail;
      var counted := WriteNumber(|elems|, 8) + rest;
      assert WriteStored(v) + tail == WriteNumber(tag, 4) + counted;
      NumberComesBack(tag, 4, counted);
      NumberComesBack(|elems|, 8, rest);
      ElemsAreSkipped(tag, elems, tail);
  }

  // ---------------------------------------------------------------------
  // Floating-point values that are not finite
  // ---------------------------------------------------------------------

  lemma LittleOf(s: Bytes, k: nat)
    requires k <= |s|
    ensures Little(s) == Little(s[..k]) + Power256(k) * Little(s[k..])
    decreases k
  {
    if k == 0 {
      assert s[..0] == [] && s[0..] == s;
    } else {
      LittleOf(s[1..], k - 1);
      assert s[..k][1..] == s[1..][..k - 1] && s[1..][k - 1..] == s[k..];
      Shifted(Power256(k - 1), Little(s[k..]));
    }
  }

  lemma Shifted(p: nat, x: nat)
    ensures 256 * (p * x) == (256 * p) * x
  {
  }

  lemma {:induction false} LittleIsSmall(s: Bytes)
    ensures Little(s) < Power256(|s|)
  {
    if s != [] {
      LittleIsSmall(s[1..]);
    }
  }

  /** The two bytes at the top of a number of `k + 2` bytes. */
  lemma TopBytes(s: Bytes, k: nat)
    requires |s| == k + 2
    ensures Little(s[..k]) < Power256(k)
    ensures Little(s) == Little(s[..k]) + Power256(k) * (s[k] as int + 256 * s[k + 1] as int)
  {
    LittleOf(s, k);
    LittleIsSmall(s[..k]);
    var top := s[k..];
    assert top[0] == s[k] && top[1..][0] == s[k + 1] && top[1..][1..] == [];
    assert Little(top) == s[k] + 256 * Little(top[1..]);
    assert Little(top[1..]) == s[k + 1] + 256 * Little([]);
  }

  lemma Powers()
    ensures Power256(2) == 0x1_0000 && Power256(6) == 0x1_0000_0000_0000
  {
    assert Power256(0) == 1 && Power256(1) == 256 && Power256(2) == 65536 && Power256(3) == 256 * 65536;
    assert Power256(4) == 256 * Power256(3) && Power256(5) == 256 * Power256(4) && Power256(6) == 256 * Power256(5);
  }

  lemma Exponent32(low: nat, a: nat, b: nat)
    requires low < 0x1_0000 && a < 256 && b < 256
    ensures (low + 0x1_0000 * (a + 256 * b)) / 0x80_0000 % 0x100 == 0xFF <==> b % 128 == 127 && a >= 128
  {
    var n := low + 0x1_0000 * (a + 256 * b);
    assert n / 0x80_0000 == 2 * b + a / 128;
  }

  lemma Exponent64(low: nat, a: nat, b: nat)
    requires low < 0x1_0000_0000_0000 && a < 256 && b < 256
    ensures (low + 0x1_0000_0000_0000 * (a + 256 * b)) / 0x10_0000_0000_0000 % 0x800 == 0x7FF
       <==> b % 128 == 127 && a >= 240
  {
    var n := low + 0x1_0000_0000_0000 * (a + 256 * b);
    assert n / 0x10_0000_0000_0000 == 16 * b + a / 16;
  }

  /** Infinities and values that are not numbers, whose exponent has all bits set (IEEE 754,
      section 3.4), and only those stop the reader. */
  lemma OnlyFiniteFloatsAreRead(data: Bytes)
    ensures 4 <= |data| ==> (ReadTyped(6, data).Stuck? <==> data[3] % 128 == 127 && data[2] >= 128)
    ensures 8 <= |data| ==> (ReadTyped(12, data).Stuck? <==> data[7] % 128 == 127 && data[6] >= 240)
  {
    Powers();
    hide Little, Power256;
    if 4 <= |data| {
      TopBytes(data[..4], 2);
      Exponent32(Little(data[..4][..2]), data[2], data[3]);
    }
    if 8 <= |data| {
      TopBytes(data[..8], 6);
      Exponent64(Little(data[..8][..6]), data[6], data[7]);
    }
  }

  lemma TagIsSmall(v: Stored)
    requires StoredOk(v)
    ensures TagOf(v) < Power256(4)
  {
    assert Power256(4) == 256 * Power256(3);
    PowerPositive(3);
  }

  lemma {:induction false} PowerPositive(k: nat)
    ensures Power256(k) >= 1
  {
    if k > 0 {
      PowerPositive(k - 1);
    }
  }

  lemma PairComesBack(p: Pair, tail: Bytes)
    requires Short(p.key) && StoredOk(p.value)
    ensures ReadPair(WritePair(p) + tail) == Read((p.key, Meaning(p.value)), tail)
  {
    TagIsSmall(p.value);
    hide Power256, WriteNumber, ReadNumber, WriteString, ReadString, WriteStored, ReadTyped, Meaning, TagOf,
        StoredOk, Short;
    var value := WriteStored(p.value) + tail;
    var tagged := WriteNumber(TagOf(p.value), 4) + value;
    assert WritePair(p) + tail == WriteString(p.key) + tagged;
    StringComesBack(p.key, tagged);
    NumberComesBack(TagOf(p.value), 4, value);
    StoredComesBack(p.value, tail);
  }

  lemma {:induction false} PairsComeBack(ps: seq<Pair>, tail: Bytes, count: nat, acc: Fields)
    requires PairsOk(ps) && |ps| <= count
    requires Full(FieldsOf(ps, acc)) || |ps| == count
    ensures ReadPairs(WritePairs(ps) + tail, count, acc) == FieldsOf(ps, acc)
  {
    hide Capture, StoredOk, WritePair, ReadPair, Short;
    if ps != [] && !Full(acc) {
      var rest := WritePairs(ps[1..]) + tail;
      assert WritePairs(ps) + tail == WritePair(ps[0]) + rest;
      PairComesBack(ps[0], rest);
      PairsComeBack(ps[1..], tail, count - 1, Capture(acc, ps[0].key, Meaning(ps[0].value)));
    }
  }

  /** A file is read as it was written, whatever arrays and other values stand before
      the fields, and whatever follows: the fields are the last ones among the pairs up to
      where both are known, or among all pairs. With BoundedReadIsSound, the prefix need
      only reach that far. */
  lemma FileComesBack(version: nat, tensors: nat, count: nat, ps: seq<Pair>, tail: Bytes)
    requires version < Power256(4) && tensors < Power256(8) && count < Power256(8)
    requires PairsOk(ps) && |ps| <= count && (Full(Known(ps)) || |ps| == count)
    ensures Parse(WriteFile(version, tensors, count, ps) + tail) == Known(ps[..Enough(ps, 0)])
  {
    LittleOfWritten(version, 4);
    LittleOfWritten(tensors, 8);
    LittleOfWritten(count, 8);
    NothingKnown(ps);
    FieldsAre(ps, 0);
    if Full(Known(ps)) {
      EnoughIsFull(ps, 0);
    }
    PairsComeBack(ps, tail, count, NOTHING);
    HeaderReads(WriteNumber(version, 4), WriteNumber(tensors, 8), WriteNumber(count, 8), WritePairs(ps) + tail);
    hide *;
    Grouped(version, tensors, count, ps, tail);
  }

  lemma NothingKnown(ps: seq<Pair>)
    ensures Known(ps[..0]) == NOTHING && ps[0..] == ps
  {
  }

  lemma Grouped(version: nat, tensors: nat, count: nat, ps: seq<Pair>, tail: Bytes)
    requires PairsOk(ps)
    ensures WriteFile(version, tensors, count, ps) + tail
         == MAGIC + (WriteNumber(version, 4) + (WriteNumber(tensors, 8) +
             (WriteNumber(count, 8) + (WritePairs(ps) + tail))))
  {
    hide WriteNumber, WritePairs;
  }

  lemma HeaderReads(v: Bytes, t: Bytes, c: Bytes, rest: Bytes)
    requires |v| == 4 && |t| == 8 && |c| == 8
    ensures Parse(MAGIC + (v + (t + (c + rest)))) == ReadPairs(rest, Little(c), NOTHING)
  {
    hide ReadPairs, Little;
    var all := MAGIC + (v + (t + (c + rest)));
    assert |MAGIC| == 4;
    assert all[..4] == MAGIC && all[16..24] == c && all[24..] == rest;
  }
}
