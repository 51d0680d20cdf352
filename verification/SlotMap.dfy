/**
 Mapping token positions to cache slots through a request's row of blocks, of which the
 last is reused in a circle.
 */
module SlotMap {
  import opened Seqs
  import opened Arithmetic

  datatype Error = EmptyRow | PastRow(pos: nat)

  datatype Result<+T> = Ok(value: T) | Err(error: Error)

  /** Positions that lie past a row of `stride` blocks. */
  function CountOverruns(positions: seq<nat>, blockSize: nat, stride: nat): nat
    requires blockSize > 0
  {
    if positions == [] then 0
    else
      CountOverruns(positions[..|positions| - 1], blockSize, stride)
      + if positions[|positions| - 1] / blockSize >= stride then 1 else 0
  }

  function Slot(row: seq<nat>, blockSize: nat, pos: nat): nat
    requires blockSize > 0 && row != []
  {
    row[Min(pos / blockSize, |row| - 1)] * blockSize + pos % blockSize
  }

  /** All positions mapped; without the clamp a position past the row is an error. */
  method CircularSlotIds(positions: seq<nat>, row: seq<nat>, blockSize: nat, clamp: bool) returns (r: Result<seq<nat>>)
    requires blockSize > 0
    ensures row == [] <==> r == Err(EmptyRow)
    ensures row != [] ==> (r.Ok? <==> clamp || CountOverruns(positions, blockSize, |row|) == 0)
    ensures r.Ok? ==> |r.value| == |positions| && forall k :: 0 <= k < |positions| ==>
          r.value[k] == Slot(row, blockSize, positions[k])
    ensures r.Err? && row != [] ==>
              exists k: nat :: FirstPast(positions, blockSize, |row|, k) && r.error == PastRow(positions[k])
  {
    if row == [] {
      return Err(EmptyRow);
    }
    var out: seq<nat> := [];
    NoOverruns(positions, blockSize, |row|);
    hide CountOverruns;
    for k := 0 to |positions|
      invariant |out| == k && forall j :: 0 <= j < k ==> out[j] == Slot(row, blockSize, positions[j])
      invariant clamp || forall j :: 0 <= j < k ==> positions[j] / blockSize < |row|
    {
      var pos := positions[k];
      var idx := pos / blockSize;
      if clamp {
        idx := Min(idx, |row| - 1);
      } else if idx < 0 || idx >= |row| {
        assert FirstPast(positions, blockSize, |row|, k);
        return Err(PastRow(pos));
      }
      out := out + [row[idx] * blockSize + pos % blockSize];
    }
    return Ok(out);
  }

  predicate FirstPast(positions: seq<nat>, blockSize: nat, stride: nat, k: nat)
    requires blockSize > 0
  {
    k < |positions| && positions[k] / blockSize >= stride && forall j :: 0 <= j < k ==>
        positions[j] / blockSize < stride
  }

  /** The overruns counted before are the positions at which the mapping fails. */
  lemma {:induction false} NoOverruns(positions: seq<nat>, blockSize: nat, stride: nat)
    requires blockSize > 0
    ensures CountOverruns(positions, blockSize, stride) == 0 <==> forall k :: 0 <= k < |positions| ==>
          positions[k] / blockSize < stride
    ensures CountOverruns(positions, blockSize, stride) <= |positions|
  {
    if positions != [] {
      NoOverruns(positions[..|positions| - 1], blockSize, stride);
    }
  }

  /** A slot lies within a block of the row: the position's own, when the row has it. */
  lemma SlotIsInRow(row: seq<nat>, blockSize: nat, pos: nat)
    requires blockSize > 0 && row != []
    ensures var k := Min(pos / blockSize, |row| - 1);
            && 0 <= k < |row| && row[k] * blockSize <= Slot(row, blockSize, pos) < (row[k] + 1) * blockSize
            && Slot(row, blockSize, pos) / blockSize == row[k] &&
                Slot(row, blockSize, pos) % blockSize == pos % blockSize
  {
    var k := Min(pos / blockSize, |row| - 1);
    assert (row[k] + 1) * blockSize == row[k] * blockSize + blockSize;
    DivModUnique(Slot(row, blockSize, pos), row[k], blockSize, pos % blockSize);
  }

  /** With distinct blocks, two positions share a slot exactly when they share the block
      of the row and the place in it: in range never, past the row one block size apart. */
  lemma SharedSlots(row: seq<nat>, blockSize: nat, p: nat, q: nat)
    requires blockSize > 0 && row != [] && forall i, j :: 0 <= i < j < |row| ==> row[i] != row[j]
    ensures Slot(row, blockSize, p) == Slot(row, blockSize, q)
       <==> p % blockSize == q % blockSize && Min(p / blockSize, |row| - 1) == Min(q / blockSize, |row| - 1)
  {
    SlotIsInRow(row, blockSize, p);
    SlotIsInRow(row, blockSize, q);
  }

  /** A row of one block is a circle: any `blockSize` consecutive positions have slots of
      their own. */
  lemma WindowIsDistinct(row: seq<nat>, blockSize: nat, p: nat, i: nat, j: nat)
    requires blockSize > 0 && |row| == 1 && i < j < blockSize
    ensures Slot(row, blockSize, p + i) != Slot(row, blockSize, p + j)
  {
    SharedSlots(row, blockSize, p + i, p + j);
    if (p + i) % blockSize == (p + j) % blockSize {
      var a, b := (p + i) / blockSize, (p + j) / blockSize;
      Apart(a, b, blockSize, j - i);
    }
  }

  lemma Apart(a: int, b: int, d: nat, k: nat)
    requires d > 0 && 0 < k < d
    ensures (b - a) * d != k
  {
    MulOrder(1, b - a, d);
    MulOrder(b - a, 0, d);
  }
}
