/**
 Reading two metadata fields from the front of a GGUF file, of which only a bounded
 prefix is at hand.
 */
module Gguf {
  import opened Options

  type byte = x: int | 0 <= x < 256

  type Bytes = seq<byte>

  /** What is read, and what is left. */
  datatype Read<+T> = Read(value: T, rest: Bytes) | Stuck

  datatype Value = Text(bytes: Bytes) | Number(n: int) | Truth(b: bool) | Float(bits: nat) | Array

  function Power256(k: nat): nat {
    if k == 0 then 1 else 256 * Power256(k - 1)
  }

  /** `k` bytes as a little-endian number. */
  function Little(s: Bytes): nat {
    if s == [] then 0 else s[0] + 256 * Little(s[1..])
  }

  function ReadNumber(data: Bytes, k: nat): Read<nat> {
    if |data| < k then Stuck else Read(Little(data[..k]), data[k..])
  }

  function Signed(n: nat, k: nat): int {
    if 2 * n < Power256(k) then n else n - Power256(k)
  }

  function ReadString(data: Bytes): Read<Bytes> {
    var len := ReadNumber(data, 8);
    if len.Stuck? || |len.rest| < len.value then Stuck
    else Read(len.rest[..len.value], len.rest[len.value..])
  }

  const UINT8 := 0
  const INT8 := 1
  const UINT16 := 2
  const INT16 := 3
  const UINT32 := 4
  const INT32 := 5
  const FLOAT32 := 6
  const BOOL := 7
  const STRING := 8
  const ARRAY := 9
  const UINT64 := 10
  const INT64 := 11
  const FLOAT64 := 12

  /** The width of a number; 0 for other types. */
  function Width(tag: nat): nat {
    if tag in {UINT8, INT8, BOOL} then 1
    else if tag in {UINT16, INT16} then 2
    else if tag in {UINT32, INT32, FLOAT32} then 4
    else if tag in {UINT64, INT64, FLOAT64} then 8
    else 0
  }

  /** Infinities and values that are not numbers do not match a float pattern. */
  predicate IsFinite(tag: nat, n: nat) {
    (tag == FLOAT32 ==> n / 0x80_0000 % 0x100 != 0xFF) && (tag == FLOAT64 ==> n / 0x10_0000_0000_0000 % 0x800 != 0x7FF)
  }

  function NumberOf(tag: nat, n: nat): Value {
    if tag == BOOL then Truth(n == 1)
    else if tag in {FLOAT32, FLOAT64} then Float(n)
    else if tag in {INT8, INT16, INT32, INT64} then Number(Signed(n, Width(tag)))
    else Number(n)
  }

  function ReadTyped(tag: nat, data: Bytes): Read<Value> {
    if tag == STRING then
      var s := ReadString(data);
      if s.Stuck? then Stuck else Read(Text(s.value), s.rest)
    else if tag == ARRAY then
      var elem := ReadNumber(data, 4);
      if elem.Stuck? then Stuck
      else
        var count := ReadNumber(elem.rest, 8);
        if count.Stuck? then Stuck else SkipArray(count.rest, elem.value, count.value)
    else if Width(tag) == 0 then Stuck
    else
      var n := ReadNumber(data, Width(tag));
      if n.Stuck? || !IsFinite(tag, n.value) then Stuck else Read(NumberOf(tag, n.value), n.rest)
  }

  function SkipArray(data: Bytes, tag: nat, count: nat): Read<Value>
    decreases count
  {
    if count == 0 then Read(Array, data)
    else
      var e := SkipElem(data, tag);
      if e.Stuck? then Stuck else SkipArray(e.rest, tag, count - 1)
  }

  function SkipElem(data: Bytes, tag: nat): Read<()> {
    if tag == STRING then
      var s := ReadString(data);
      if s.Stuck? then Stuck else Read((), s.rest)
    else if Width(tag) == 0 || |data| < Width(tag) then Stuck
    else Read((), data[Width(tag)..])
  }

  function ReadValue(data: Bytes): Read<Value> {
    var tag := ReadNumber(data, 4);
    if tag.Stuck? then Stuck else ReadTyped(tag.value, tag.rest)
  }

  function ReadPair(data: Bytes): Read<(Bytes, Value)> {
    var key := ReadString(data);
    if key.Stuck? then Stuck
    else
      var v := ReadValue(key.rest);
      if v.Stuck? then Stuck else Read((key.value, v.value), v.rest)
  }

  // ---------------------------------------------------------------------
  // The fields
  // ---------------------------------------------------------------------

  datatype Fields = Fields(family: Option<Bytes>, ctxMax: Option<int>)

  const NOTHING := Fields(None, None)

  function Ascii(s: string): (r: Bytes)
    requires forall k :: 0 <= k < |s| ==> s[k] as int < 256
    ensures |r| == |s|
  {
    seq(|s|, k requires 0 <= k < |s| => s[k] as int as byte)
  }

  predicate EndsWith(s: Bytes, suffix: Bytes) {
    |suffix| <= |s| && s[|s| - |suffix|..] == suffix
  }

  function Capture(acc: Fields, key: Bytes, v: Value): Fields {
    if key == Ascii("general.architecture") && v.Text? then acc.(family := Some(v.bytes))
    else if v.Number? && v.n > 0 && EndsWith(key, Ascii(".context_length")) then acc.(ctxMax := Some(v.n))
    else acc
  }

  predicate Full(f: Fields) {
    f.family.Some? && f.ctxMax.Some?
  }

  function ReadPairs(data: Bytes, n: nat, acc: Fields): Fields
    decreases n
  {
    if n == 0 || Full(acc) then acc
    else
      var p := ReadPair(data);
      if p.Stuck? then acc else ReadPairs(p.rest, n - 1, Capture(acc, p.value.0, p.value.1))
  }

  const MAGIC: Bytes := Ascii("GGUF")

  function Parse(data: Bytes): Fields {
    if |data| < 24 || data[..4] != MAGIC then NOTHING
    else ReadPairs(data[24..], Little(data[16..24]), NOTHING)
  }

  // ---------------------------------------------------------------------
  // More bytes change nothing that was read
  // ---------------------------------------------------------------------

  function Longer<T>(r: Read<T>, more: Bytes): Read<T> {
    if r.Stuck? then Stuck else Read(r.value, r.rest + more)
  }

  lemma NumberWithMore(data: Bytes, more: Bytes, k: nat)
    requires ReadNumber(data, k).Read?
    ensures ReadNumber(data + more, k) == Longer(ReadNumber(data, k), more)
  {
    assert (data + more)[..k] == data[..k];
    assert (data + more)[k..] == data[k..] + more;
  }

  lemma StringWithMore(data: Bytes, more: Bytes)
    requires ReadString(data).Read?
    ensures ReadString(data + more) == Longer(ReadString(data), more)
  {
    NumberWithMore(data, more, 8);
    var len := ReadNumber(data, 8);
    hide ReadNumber;
    assert (len.rest + more)[..len.value] == len.rest[..len.value];
    assert (len.rest + more)[len.value..] == len.rest[len.value..] + more;
  }

  lemma ElemWithMore(data: Bytes, more: Bytes, tag: nat)
    requires SkipElem(data, tag).Read?
    ensures SkipElem(data + more, tag) == Longer(SkipElem(data, tag), more)
  {
    if tag == STRING {
      StringWithMore(data, more);
    } else {
      assert (data + more)[Width(tag)..] == data[Width(tag)..] + more;
    }
    hide ReadString, Width;
  }

  lemma {:induction false} ArrayWithMore(data: Bytes, more: Bytes, tag: nat, count: nat)
    requires SkipArray(data, tag, count).Read?
    ensures SkipArray(data + more, tag, count) == Longer(SkipArray(data, tag, count), more)
    decreases count
  {
    hide SkipElem;
    if count > 0 {
      ElemWithMore(data, more, tag);
      ArrayWithMore(SkipElem(data, tag).rest, more, tag, count - 1);
    }
  }

  lemma TypedWithMore(tag: nat, data: Bytes, more: Bytes)
    requires ReadTyped(tag, data).Read?
    ensures ReadTyped(tag, data + more) == Longer(ReadTyped(tag, data), more)
  {
    hide SkipArray, ReadNumber, ReadString, NumberOf, IsFinite;
    if tag == STRING {
      StringWithMore(data, more);
    } else if tag == ARRAY {
      var elem := ReadNumber(data, 4);
      NumberWithMore(data, more, 4);
      NumberWithMore(elem.rest, more, 8);
      var count := ReadNumber(elem.rest, 8);
      ArrayWithMore(count.rest, more, elem.value, count.value);
    } else {
      NumberWithMore(data, more, Width(tag));
    }
  }

  lemma PairWithMore(data: Bytes, more: Bytes)
    requires ReadPair(data).Read?
    ensures ReadPair(data + more) == Longer(ReadPair(data), more)
  {
    hide ReadNumber, ReadString, ReadTyped;
    StringWithMore(data, more);
    var rest := ReadString(data).rest;
    NumberWithMore(rest, more, 4);
    var tag := ReadNumber(rest, 4);
    TypedWithMore(tag.value, tag.rest, more);
  }

  lemma {:induction false} PairsWithMore(data: Bytes, more: Bytes, n: nat, acc: Fields)
    requires Full(ReadPairs(data, n, acc))
    ensures ReadPairs(data + more, n, acc) == ReadPairs(data, n, acc)
    decreases n
  {
    hide ReadPair, Capture;
    if n > 0 && !Full(acc) {
      PairWithMore(data, more);
      var p := ReadPair(data);
      PairsWithMore(p.rest, more, n - 1, Capture(acc, p.value.0, p.value.1));
    }
  }

  /** If any prefix of a file yields both fields, every longer prefix, and so the whole
      file, yields the same pair. */
  lemma BoundedReadIsSound(file: Bytes, n: nat, m: nat)
    requires n <= m <= |file| && Full(Parse(file[..n]))
    ensures Parse(file[..m]) == Parse(file[..n]) && Parse(file) == Parse(file[..n])
  {
    hide *;
    assert file[..n] + file[n..m] == file[..m];
    assert file[..n] + file[n..] == file;
    ParseWithMore(file[..n], file[n..m]);
    ParseWithMore(file[..n], file[n..]);
  }

  lemma ParseWithMore(data: Bytes, more: Bytes)
    requires Full(Parse(data))
    ensures Parse(data + more) == Parse(data)
  {
    assert |data| >= 24;
    var all := data + more;
    assert all[..4] == data[..4] && all[16..24] == data[16..24] && all[24..] == data[24..] + more;
    PairsWithMore(data[24..], more, Little(data[16..24]), NOTHING);
    hide ReadPairs, Little;
  }
}
