/** The decoder the processor runs on-chain (`program/src/pod_instruction.rs` and
    `decode_instruction_data`), and how far it agrees with the reference parser. */
module PodInstruction {
  import opened Base
  import opened ByteStrings
  import opened InstructionCodec

  function PodPubkeyOption(input: Bytes): Result<Option<Address>> {
    if input != [] && input[0] == 0 then Ok(None)
    else if input != [] && input[0] == 1 then
      if |input| < 33 then Err(InvalidInstructionData) else Ok(Some(Address(input[1..33])))
    else Err(InvalidInstructionData)
  }

  function PodU64Option(input: Bytes): Result<Option<u64>> {
    if input != [] && input[0] == 0 then Ok(None)
    else if input != [] && input[0] == 1 then
      if |input| < 9 then Err(InvalidInstructionData) else Ok(Some(U64Of(input[1..9])))
    else Err(InvalidInstructionData)
  }

  /** `decode_instruction_data` for a type of `size` bytes: exactly that many follow the tag. */
  function DecodeData(input: Bytes, size: nat): Result<Bytes> {
    if |input| != size + 1 then Err(InvalidInstructionData) else Ok(input[1..])
  }

  datatype WithOption<T> = WithOption(data: Bytes, option: Option<T>)

  /** `size` bytes after the tag, then an optional key; whatever follows is ignored. */
  function DecodeWithPubkeyOption(input: Bytes, size: nat): (r: Result<WithOption<Address>>)
    ensures r.Ok? ==> |r.value.data| == size
  {
    if |input| < size + 1 then Err(InvalidInstructionData)
    else
      var key :- PodPubkeyOption(input[size + 1..]);
      Ok(WithOption(input[1..size + 1], key))
  }

  function DecodeWithU64Option(input: Bytes, size: nat): (r: Result<WithOption<u64>>)
    ensures r.Ok? ==> |r.value.data| == size
  {
    if |input| < size + 1 then Err(InvalidInstructionData)
    else
      var amount :- PodU64Option(input[size + 1..]);
      Ok(WithOption(input[1..size + 1], amount))
  }

  /** The payload as the processor reads it for a tag of this layout. */
  function PodPayload(layout: Layout, input: Bytes): Result<Payload>
    requires input != []
  {
    match layout
    case NothingLayout => Ok(Nothing)
    case ByteLayout => (var data :- DecodeData(input, 1); Ok(Byte(data[0])))
    case AmountLayout => (var data :- DecodeData(input, 8); Ok(Amount(U64Of(data))))
    case CheckedLayout => (var data :- DecodeData(input, 9); Ok(Checked(AmountDecimals(U64Of(data[..8]), data[8]))))
    case KeyLayout => (var data :- DecodeData(input, 32); Ok(Key(Address(data))))
    case KeyOptionLayout => (var d :- DecodeWithPubkeyOption(input, 0); Ok(KeyOption(d.option)))
    case NewMintLayout => (var d :- DecodeWithPubkeyOption(input, 33); Ok(NewMint(d.data[0], Address(d.data[1..33]), d.option)))
    case NewAuthorityLayout =>
      var d :- DecodeWithPubkeyOption(input, 1);
      var kind :- AuthorityTypeFrom(d.data[0]);
      Ok(NewAuthority(kind, d.option))
    case TypesLayout => (var types :- UnpackExtensionTypes(input[1..]); Ok(Types(types)))
    case UiTextLayout => if ValidUtf8(input[1..]) then Ok(UiText(input[1..])) else Err(InvalidInstruction)
    case AmountOptionLayout => (var d :- DecodeWithU64Option(input, 0); Ok(AmountOption(d.option)))
    case RawLayout => Err(InvalidInstruction)
  }

  /** The decoding half of `_process_inner`; a nested batch is refused. */
  function PodDecode(input: Bytes): Result<TokenInstruction> {
    if input == [] || LayoutOf(input[0]).None? then Err(InvalidInstruction)
    else
      var p :- PodPayload(LayoutOf(input[0]).value, input);
      if Assemble(input[0], p).Some? then Ok(Assemble(input[0], p).value) else Err(Panic)
  }

  /** Layouts after which the decoder leaves any further bytes alone; the extension
      processors get those that follow their tags. */
  predicate Lenient(layout: Layout) {
    layout.NothingLayout? || layout.KeyOptionLayout? || layout.NewMintLayout? || layout.NewAuthorityLayout? || layout.AmountOptionLayout?
  }

  /** The decoder leaves alone what follows the data of this instruction. */
  predicate LeavesTail(ins: TokenInstruction) {
    LayoutOf(Tag(ins)).Some? && Lenient(LayoutOf(Tag(ins)).value)
  }

  lemma PubkeyOptionsAgree(input: Bytes)
    ensures PodPubkeyOption(input).Ok? <==> UnpackPubkeyOption(input).Ok?
    ensures PodPubkeyOption(input).Ok? ==> PodPubkeyOption(input).value == UnpackPubkeyOption(input).value.value
  {
    if input != [] && |input| >= 33 {
      assert input[1..][..32] == input[1..33];
    }
  }

  lemma U64OptionsAgree(input: Bytes)
    ensures PodU64Option(input).Ok? <==> UnpackU64Option(input).Ok?
    ensures PodU64Option(input).Ok? ==> PodU64Option(input).value == UnpackU64Option(input).value.value
  {
    if input != [] && |input| >= 9 {
      assert input[1..][..8] == input[1..9];
    }
  }

  lemma NewMintAgrees(input: Bytes)
    requires input != []
    ensures PodPayload(NewMintLayout, input).Ok? <==> UnpackNewMint(input[1..]).Ok?
    ensures PodPayload(NewMintLayout, input).Ok? ==> PodPayload(NewMintLayout, input).value == UnpackNewMint(input[1..]).value.value
  {
    if |input| >= 34 {
      var rest := input[1..];
      assert rest[1..][32..] == input[34..];
      assert rest[1..][..32] == input[1..34][1..33];
      PubkeyOptionsAgree(input[34..]);
    }
  }

  lemma NewAuthorityAgrees(input: Bytes)
    requires input != []
    ensures PodPayload(NewAuthorityLayout, input).Ok? <==> UnpackNewAuthority(input[1..]).Ok?
    ensures PodPayload(NewAuthorityLayout, input).Ok? ==> PodPayload(NewAuthorityLayout, input).value == UnpackNewAuthority(input[1..]).value.value
  {
    if |input| >= 2 {
      assert input[1..][1..] == input[2..];
      PubkeyOptionsAgree(input[2..]);
    }
  }

  lemma ExactLayoutsAgree(layout: Layout, input: Bytes)
    requires input != [] && !Lenient(layout) && !layout.RawLayout?
    ensures PodPayload(layout, input).Ok? <==> UnpackPayload(layout, input[1..]).Ok? && UnpackPayload(layout, input[1..]).value.rest == []
    ensures PodPayload(layout, input).Ok? ==> PodPayload(layout, input).value == UnpackPayload(layout, input[1..]).value.value
  {
    var rest := input[1..];
    assert |rest| == 8 ==> rest[..8] == rest;
    assert |rest| == 9 ==> rest[8..][0] == rest[8];
    assert |rest| == 32 ==> rest[..32] == rest;
  }

  /** Payload by payload: the on-chain decoder accepts what the reference parser
      accepts, with the same fields, as long as nothing is left over or it leaves
      what is left over alone; and it accepts nothing else. */
  lemma PayloadsAgree(layout: Layout, input: Bytes)
    requires input != [] && !layout.RawLayout?
    ensures PodPayload(layout, input).Ok? <==>
            UnpackPayload(layout, input[1..]).Ok? && (Lenient(layout) || UnpackPayload(layout, input[1..]).value.rest == [])
    ensures PodPayload(layout, input).Ok? ==> PodPayload(layout, input).value == UnpackPayload(layout, input[1..]).value.value
  {
    match layout
    case NothingLayout =>
    case KeyOptionLayout => PubkeyOptionsAgree(input[1..]);
    case AmountOptionLayout => U64OptionsAgree(input[1..]);
    case NewMintLayout => NewMintAgrees(input);
    case NewAuthorityLayout => NewAuthorityAgrees(input);
    case _ => ExactLayoutsAgree(layout, input);
  }

  /** The processor decodes an input to an instruction exactly when the reference
      parser reads that instruction from it, other than a batch, and leaves nothing,
      or leaves bytes after one of the instructions whose tail the decoder leaves alone. */
  lemma PodDecodesWhatUnpacks(input: Bytes, ins: TokenInstruction)
    ensures PodDecode(input) == Ok(ins) <==>
            && UnpackWithRest(input).Ok? && UnpackWithRest(input).value.value == ins && !ins.Batch?
            && (UnpackWithRest(input).value.rest == [] || LeavesTail(ins))
  {
    SplitAssembles(ins);
    if input != [] && LayoutOf(input[0]).Some? {
      var layout := LayoutOf(input[0]).value;
      if UnpackPayload(layout, input[1..]).Ok? {
        PayloadParsed(layout, input[1..]);
        AssembleSplits(input[0], UnpackPayload(layout, input[1..]).value.value);
      }
      if layout.RawLayout? {
        assert input[0] == 255;
      } else {
        PayloadsAgree(layout, input);
      }
    }
  }

  /** In particular a whole input the reference parser accepts decodes on-chain to the
      same instruction. */
  lemma PodRefinesUnpack(input: Bytes)
    requires UnpackWithRest(input).Ok? && UnpackWithRest(input).value.rest == [] && !UnpackWithRest(input).value.value.Batch?
    ensures PodDecode(input) == Ok(UnpackWithRest(input).value.value)
  {
    PodDecodesWhatUnpacks(input, UnpackWithRest(input).value.value);
  }

  /** The other way fails for the instructions whose tail the decoder leaves alone: the reference
      parser's callers that insist on an empty rest reject this Revoke, the processor runs it. */
  lemma LenientExample()
    ensures PodDecode([5, 7]) == Ok(Revoke)
    ensures UnpackWithRest([5, 7]) == Ok(Parsed(Revoke, [7]))
  {
    var input: Bytes := [5, 7];
    assert input[1..] == [7];
  }
}
