/** The item list a batch's bytes are written out as and read back from
    (`batch_fromstr` in `interface/src/serialization.rs`). */
module BatchText {
  import opened Base
  import opened ByteStrings
  import opened InstructionCodec
  import Batch = BatchProcessing

  datatype BatchItem = BatchItem(accountCount: u8, dataLength: u8, instruction: TokenInstruction)

  /** Where the frame at the front of `x` ends. */
  function ItemEnd(x: Bytes): nat
    requires |x| >= 2
  {
    2 + x[1] as nat
  }

  /** One frame from the front: its item and what follows it. */
  function ReadItem(x: Bytes): Result<Parsed<BatchItem>> {
    if |x| < 2 || |x| < ItemEnd(x) then Err(InvalidInstruction)
    else
      var p :- UnpackWithRest(x[2..ItemEnd(x)]);
      if p.rest != [] || p.value.Batch? then Err(InvalidInstruction)
      else Ok(Parsed(BatchItem(x[0], x[1], p.value), x[ItemEnd(x)..]))
  }

  function ReadItems(x: Bytes): Result<seq<BatchItem>>
    decreases |x|
  {
    var item :- ReadItem(x);
    if item.rest == [] then Ok([item.value])
    else
      var items :- ReadItems(item.rest);
      Ok([item.value] + items)
  }

  function WriteItem(item: BatchItem): Bytes {
    [item.accountCount, item.dataLength] + Pack(item.instruction)
  }

  function Concat(items: seq<BatchItem>, write: BatchItem -> Bytes): Bytes {
    if items == [] then [] else write(items[0]) + Concat(items[1..], write)
  }

  predicate NoBatch(items: seq<BatchItem>) {
    forall i | 0 <= i < |items| :: !items[i].instruction.Batch?
  }

  function WriteItems(items: seq<BatchItem>): Result<Bytes> {
    if NoBatch(items) then Ok(Concat(items, WriteItem)) else Err(InvalidInstruction)
  }

  method SerializeItem(x: Bytes) returns (r: Result<Parsed<BatchItem>>)
    ensures r == ReadItem(x)
  {
    if |x| < 2 { return Err(InvalidInstruction); }
    var rest := x[2..];
    if |rest| < x[1] { return Err(InvalidInstruction); }
    var instructionData;
    instructionData, rest := rest[..x[1]], rest[x[1]..];
    assert instructionData == x[2..ItemEnd(x)] && rest == x[ItemEnd(x)..];
    var unpacked := UnpackWithRest(instructionData);
    if unpacked.Err? { return Err(unpacked.error); }
    if unpacked.value.rest != [] { return Err(InvalidInstruction); }
    if unpacked.value.value.Batch? { return Err(InvalidInstruction); }
    return Ok(Parsed(BatchItem(x[0], x[1], unpacked.value.value), rest));
  }

  /** `batch_fromstr::serialize`. */
  method Serialize(data: Bytes) returns (r: Result<seq<BatchItem>>)
    ensures r == ReadItems(data)
  {
    var x := data;
    var items: seq<BatchItem> := [];
    assert forall t: seq<BatchItem> :: [] + t == t;
    while true
      invariant ReadItems(data) == if ReadItems(x).Ok? then Ok(items + ReadItems(x).value) else ReadItems(x)
      decreases |x|
    {
      var next := SerializeItem(x);
      if next.Err? { return Err(next.error); }
      var item, rest := next.value.value, next.value.rest;
      ghost var more := ReadItems(rest);
      assert rest != [] && more.Ok? ==> items + ([item] + more.value) == (items + [item]) + more.value;
      items := items + [item];
      x := rest;
      if x == [] { return Ok(items); }
    }
  }

  lemma {:induction false} ConcatSnoc(items: seq<BatchItem>, last: BatchItem, write: BatchItem -> Bytes)
    ensures Concat(items + [last], write) == Concat(items, write) + write(last)
    decreases |items|
  {
    if items == [] {
      assert [last][1..] == [];
      assert write(last) + [] == [] + write(last);
    } else {
      assert (items + [last])[1..] == items[1..] + [last];
      ConcatSnoc(items[1..], last, write);
      assert write(items[0]) + (Concat(items[1..], write) + write(last))
          == write(items[0]) + Concat(items[1..], write) + write(last);
    }
  }

  lemma WriteItemsCons(item: BatchItem, items: seq<BatchItem>)
    requires !item.instruction.Batch? && WriteItems(items).Ok?
    ensures WriteItems([item] + items) == Ok(WriteItem(item) + WriteItems(items).value)
  {
    assert ([item] + items)[1..] == items;
  }

  lemma WriteItemsSnoc(init: seq<BatchItem>, last: BatchItem)
    requires !last.instruction.Batch? && WriteItems(init).Ok?
    ensures WriteItems(init + [last]) == Ok(WriteItems(init).value + WriteItem(last))
  {
    ConcatSnoc(init, last, WriteItem);
    assert NoBatch(init + [last]);
  }

  method DeserializeItem(item: BatchItem, buffer: Bytes) returns (out: Bytes)
    ensures out == buffer + WriteItem(item)
  {
    out := buffer + [item.accountCount];
    out := out + [item.dataLength];
    var packed := PackInstruction(item.instruction);
    out := out + packed;
  }

  /** `batch_fromstr::deserialize`. */
  method Deserialize(items: seq<BatchItem>) returns (r: Result<Bytes>)
    ensures r == WriteItems(items)
  {
    var out: Bytes := [];
    for i := 0 to |items|
      invariant WriteItems(items[..i]) == Ok(out)
    {
      if items[i].instruction.Batch? { return Err(InvalidInstruction); }
      WriteItemsSnoc(items[..i], items[i]);
      assert items[..i] + [items[i]] == items[..i + 1];
      out := DeserializeItem(items[i], out);
    }
    assert items[..|items|] == items;
    return Ok(out);
  }

  /** The item can stand for a frame: its length byte is right and it is no batch. */
  predicate WellSized(item: BatchItem) {
    item.dataLength == |Pack(item.instruction)| && !item.instruction.Batch?
  }

  lemma ItemReadIsItemWritten(x: Bytes)
    requires ReadItem(x).Ok?
    ensures x == WriteItem(ReadItem(x).value.value) + ReadItem(x).value.rest
    ensures WellSized(ReadItem(x).value.value)
  {
    var data, rest := x[2..ItemEnd(x)], x[ItemEnd(x)..];
    PackAfterUnpack(data);
    var packed := Pack(UnpackWithRest(data).value.value);
    assert packed + [] == packed;
    assert x == ([x[0], x[1]] + data) + rest;
  }

  /** Whatever bytes are written out as items, reading the items gives the bytes back. */
  lemma {:induction false} BytesRoundTrip(x: Bytes)
    requires ReadItems(x).Ok?
    ensures WriteItems(ReadItems(x).value) == Ok(x)
    ensures ReadItems(x).value != [] && forall i | 0 <= i < |ReadItems(x).value| :: WellSized(ReadItems(x).value[i])
    decreases |x|
  {
    var first := ReadItem(x).value;
    ItemReadIsItemWritten(x);
    if first.rest != [] {
      BytesRoundTrip(first.rest);
      WriteItemsCons(first.value, ReadItems(first.rest).value);
    } else {
      WriteItemsCons(first.value, []);
      assert [first.value] + [] == [first.value];
    }
  }

  lemma ItemWrittenIsItemRead(item: BatchItem, tail: Bytes)
    requires WellSized(item)
    ensures ReadItem(WriteItem(item) + tail) == Ok(Parsed(item, tail))
  {
    UnpackAfterPack(item.instruction, []);
    var x := WriteItem(item) + tail;
    assert x[2..ItemEnd(x)] == Pack(item.instruction) + [];
    assert x[ItemEnd(x)..] == tail;
  }

  lemma {:induction false} ItemsAreRead(items: seq<BatchItem>)
    requires items != [] && forall i | 0 <= i < |items| :: WellSized(items[i])
    ensures WriteItems(items).Ok? && ReadItems(WriteItems(items).value) == Ok(items)
    decreases |items|
  {
    if |items| > 1 {
      ItemsAreRead(items[1..]);
      var rest := WriteItems(items[1..]).value;
      ItemWrittenIsItemRead(items[0], rest);
      WriteItemsCons(items[0], items[1..]);
      assert [items[0]] + items[1..] == items;
    } else {
      assert WriteItems(items[1..]) == Ok([]);
      ItemWrittenIsItemRead(items[0], []);
      assert items == [items[0]];
    }
  }

  /** Items survive being read as bytes and written out again exactly when there is one
      at least, each states its own length correctly, and none is a batch: reading does
      not check the length it is told. */
  lemma ItemsRoundTrip(items: seq<BatchItem>)
    ensures (WriteItems(items).Ok? && ReadItems(WriteItems(items).value) == Ok(items)) <==>
            (items != [] && forall i | 0 <= i < |items| :: WellSized(items[i]))
  {
    if WriteItems(items).Ok? && ReadItems(WriteItems(items).value) == Ok(items) {
      BytesRoundTrip(WriteItems(items).value);
    }
    if items != [] && forall i | 0 <= i < |items| :: WellSized(items[i]) {
      ItemsAreRead(items);
    }
  }

  // ---------------------------------------------------------------- the items of a batch that runs

  /** The instruction of a batch can be written out. */
  predicate Readable(sub: Batch.Sub) {
    && Batch.Fits(sub) && UnpackWithRest(sub.data).Ok?
    && UnpackWithRest(sub.data).value.rest == [] && !UnpackWithRest(sub.data).value.value.Batch?
  }

  function ItemOf(sub: Batch.Sub): BatchItem
    requires Readable(sub)
  {
    BatchItem(|sub.accounts|, |sub.data|, UnpackWithRest(sub.data).value.value)
  }

  function ItemsOf(subs: seq<Batch.Sub>): seq<BatchItem>
    requires forall i | 0 <= i < |subs| :: Readable(subs[i])
  {
    if subs == [] then [] else [ItemOf(subs[0])] + ItemsOf(subs[1..])
  }

  lemma FrameIsRead(sub: Batch.Sub, rest: Bytes)
    requires Readable(sub)
    ensures ReadItem(Batch.Frame(sub) + rest) == Ok(Parsed(ItemOf(sub), rest))
  {
    var x := Batch.Frame(sub) + rest;
    assert x[2..ItemEnd(x)] == sub.data && x[ItemEnd(x)..] == rest;
  }

  /** The items a batch is written out as are the instructions it runs, with the number of
      accounts each is given. */
  lemma {:induction false} ItemsAreTheInstructions(subs: seq<Batch.Sub>)
    requires subs != [] && (forall i | 0 <= i < |subs| :: Readable(subs[i])) && Batch.AllFit(subs)
    ensures ReadItems(Batch.Frames(subs)) == Ok(ItemsOf(subs))
    decreases |subs|
  {
    var rest := Batch.Frames(subs[1..]);
    FrameIsRead(subs[0], rest);
    if |subs| > 1 {
      assert rest != [];
      ItemsAreTheInstructions(subs[1..]);
    } else {
      assert rest == [] && ItemsOf(subs[1..]) == [];
      assert [ItemOf(subs[0])] + [] == [ItemOf(subs[0])];
    }
  }
}
