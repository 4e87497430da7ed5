/** The protobuf wire reader behind the vector-tile smoke checks: infrastructure/maps/vector_tile.py.
    The encoder follows "Base 128 Varints" and "Message Structure" of the Protocol Buffers encoding guide. */
module VectorTile {
  import opened Prelude

  type byte = x: int | 0 <= x < 256
  type Bytes = seq<byte>

  datatype WireError = Truncated | InvalidVarint | TruncatedField | TruncatedScalar | UnsupportedWireType | WrongType

  // ----- shifting and or-ing -----

  function Pow2(n: nat): (p: nat)
    ensures p > 0
  {
    if n == 0 then 1 else 2 * Pow2(n - 1)
  }

  /** Bitwise or of two natural numbers. */
  function BitOr(a: nat, b: nat): nat {
    if a == 0 && b == 0 then 0
    else 2 * BitOr(a / 2, b / 2) + (if a % 2 == 1 || b % 2 == 1 then 1 else 0)
  }

  /** `value | low << shift` */
  function WithBits(value: nat, low: nat, shift: nat): nat {
    BitOr(value, low * Pow2(shift))
  }

  lemma {:induction false} OrZero(b: nat)
    ensures BitOr(0, b) == b
  {
    if b > 0 {
      OrZero(b / 2);
    }
  }

  /** Or-ing in bits above the ones already present is addition. */
  lemma {:induction false} OrOfDisjointBits(a: nat, b: nat, n: nat)
    requires a < Pow2(n)
    ensures BitOr(a, b * Pow2(n)) == a + b * Pow2(n)
  {
    if n == 0 {
      OrZero(b);
    } else {
      var half := b * Pow2(n - 1);
      assert b * Pow2(n) == 2 * half;
      OrOfDisjointBits(a / 2, b, n - 1);
    }
  }

  lemma {:induction false} Pow2Add(m: nat, n: nat)
    ensures Pow2(m + n) == Pow2(m) * Pow2(n)
  {
    if m > 0 {
      Pow2Add(m - 1, n);
    }
  }

  // ----- reading -----

  datatype Varint = Varint(value: nat, rest: Bytes) | VarintError(error: WireError)

  /** The varint at the head of `data`, whose first byte is shifted by `shift` bits; at most ten bytes in all. */
  function ReadVarint(data: Bytes, shift: nat): (r: Varint)
    ensures r.Varint? ==> |r.rest| < |data|
    decreases |data|
  {
    if shift >= 70 then VarintError(InvalidVarint)
    else if data == [] then VarintError(Truncated)
    else if data[0] < 128 then Varint(data[0], data[1..])
    else
      var tail := ReadVarint(data[1..], shift + 7);
      if tail.VarintError? then tail else Varint(data[0] % 128 + 128 * tail.value, tail.rest)
  }

  /** What the reader yields for one field: an integer for wire type 0, otherwise a run of bytes. */
  datatype Value = Int(n: nat) | Run(bytes: Bytes)

  datatype Yield = Yield(number: nat, value: Value)

  datatype Step = Step(field: Yield, rest: Bytes) | StepError(error: WireError)

  function TakeRun(number: nat, data: Bytes, length: nat, error: WireError): (s: Step)
    ensures s.Step? ==> |s.rest| <= |data|
  {
    if |data| < length then StepError(error) else Step(Yield(number, Run(data[..length])), data[length..])
  }

  /** What follows a tag of this number and wire type. */
  function ReadPayload(number: nat, wire: nat, data: Bytes): (s: Step)
    ensures s.Step? ==> |s.rest| <= |data|
  {
    if wire == 0 then
      var v := ReadVarint(data, 0);
      if v.VarintError? then StepError(v.error) else Step(Yield(number, Int(v.value)), v.rest)
    else if wire == 2 then
      var length := ReadVarint(data, 0);
      if length.VarintError? then StepError(length.error)
      else TakeRun(number, length.rest, length.value, TruncatedField)
    else if wire == 1 then TakeRun(number, data, 8, TruncatedScalar)
    else if wire == 5 then TakeRun(number, data, 4, TruncatedScalar)
    else StepError(UnsupportedWireType)
  }

  /** One field at the head of non-empty data. */
  function ReadField(data: Bytes): (s: Step)
    ensures s.Step? ==> |s.rest| < |data|
  {
    var tag := ReadVarint(data, 0);
    if tag.VarintError? then StepError(tag.error)
    else ReadPayload(tag.value / 8, tag.value % 8, tag.rest)
  }

  /** The fields yielded before the end or the first error, and that error. */
  datatype Decoded = Decoded(fields: seq<Yield>, error: Option<WireError>)

  function Fields(data: Bytes): Decoded
    decreases |data|
  {
    if data == [] then Decoded([], None)
    else
      var step := ReadField(data);
      if step.StepError? then Decoded([], Some(step.error))
      else
        var tail := Fields(step.rest);
        Decoded([step.field] + tail.fields, tail.error)
  }

  /** A varint whose lowest `shift` bits are `value`. */
  function Above(value: nat, high: Varint, shift: nat): Varint {
    if high.Varint? then Varint(value + high.value * Pow2(shift), high.rest) else high
  }

  /** The reader: a buffer and the offset that the generator and its varint helper share. */
  class FieldReader {
    const data: Bytes
    var offset: nat

    ghost predicate Valid()
      reads this
    {
      offset <= |data|
    }

    ghost function Ahead(): Bytes
      requires Valid()
      reads this
    {
      data[offset..]
    }

    constructor (data: Bytes)
      ensures Valid() && this.data == data && offset == 0
    {
      this.data := data;
      offset := 0;
    }

    /** Reads one varint; on an error the offset has still moved over the bytes looked at. */
    method Integer() returns (result: Result<nat, WireError>)
      requires Valid()
      modifies this
      ensures Valid()
      ensures match ReadVarint(old(Ahead()), 0)
              case Varint(value, rest) => result == Ok(value) && Ahead() == rest && offset > old(offset)
              case VarintError(error) => result == Err(error)
    {
      var value: nat, shift: nat := 0, 0;
      ghost var start := Ahead();
      while shift < 70
        invariant Valid() && old(offset) <= offset && (shift > 0 ==> offset > old(offset))
        invariant ReadSoFar(start, value, shift, Ahead())
      {
        if offset >= |data| {
          return Err(Truncated);
        }
        var byte := data[offset];
        OneMoreByte(start, value, shift, Ahead());
        offset := offset + 1;
        value := WithBits(value, byte % 128, shift);
        if byte < 128 {
          return Ok(value);
        }
        shift := shift + 7;
      }
      return Err(InvalidVarint);
    }

    /** The generator, run to its end or to its first error. */
    method AllFields() returns (result: Decoded)
      requires Valid()
      modifies this
      ensures result == Fields(old(Ahead()))
    {
      var fields: seq<Yield> := [];
      while offset < |data|
        invariant Valid()
        invariant Fields(old(Ahead())) == Decoded(fields + Fields(Ahead()).fields, Fields(Ahead()).error)
        decreases |data| - offset
      {
        ghost var ahead := Ahead();
        ghost var step := ReadField(ahead);
        var field := Field();
        if field.Err? {
          assert fields + [] == fields;
          return Decoded(fields, Some(field.error));
        }
        assert fields + ([field.value] + Fields(step.rest).fields) == (fields + [field.value]) + Fields(step.rest).fields;
        fields := fields + [field.value];
      }
      assert Ahead() == [] && fields + [] == fields;
      return Decoded(fields, None);
    }

    /** One round of the generator. */
    method Field() returns (result: Result<Yield, WireError>)
      requires Valid() && offset < |data|
      modifies this
      ensures Valid()
      ensures match ReadField(old(Ahead()))
              case Step(field, rest) => result == Ok(field) && Ahead() == rest && offset > old(offset)
              case StepError(error) => result == Err(error)
    {
      var tag := Integer();
      if tag.Err? {
        return Err(tag.error);
      }
      var number, wire := tag.value / 8, tag.value % 8;
      if wire == 0 {
        var value := Integer();
        if value.Err? {
          return Err(value.error);
        }
        return Ok(Yield(number, Int(value.value)));
      } else if wire == 2 {
        var length := Integer();
        if length.Err? {
          return Err(length.error);
        }
        result := Slice(number, length.value, TruncatedField);
      } else if wire == 1 || wire == 5 {
        result := Slice(number, if wire == 1 then 8 else 4, TruncatedScalar);
      } else {
        return Err(UnsupportedWireType);
      }
    }

    method Slice(number: nat, length: nat, error: WireError) returns (result: Result<Yield, WireError>)
      requires Valid()
      modifies this
      ensures Valid()
      ensures match TakeRun(number, old(Ahead()), length, error)
              case Step(field, rest) => result == Ok(field) && Ahead() == rest && offset >= old(offset)
              case StepError(e) => result == Err(e)
    {
      if |data| - offset < length {
        return Err(error);
      }
      var value := data[offset..offset + length];
      assert value == data[offset..][..length];
      offset := offset + length;
      return Ok(Yield(number, Run(value)));
    }
  }

  /** One round of the varint loop: the seven new bits land above the ones collected. */
  lemma VarintStep(value: nat, low: nat, shift: nat)
    requires value < Pow2(shift) && low < 128
    ensures BitOr(value, low * Pow2(shift)) == value + low * Pow2(shift) < Pow2(shift + 7)
  {
    OrOfDisjointBits(value, low, shift);
    SevenMoreBits(shift);
    TimesAtMost(low, 127, Pow2(shift));
  }

  /** `value` holds the bits of the bytes between `start` and `ahead`. */
  ghost predicate ReadSoFar(start: Bytes, value: nat, shift: nat, ahead: Bytes) {
    value < Pow2(shift) && ReadVarint(start, 0) == Above(value, ReadVarint(ahead, shift), shift)
  }

  lemma OneMoreByte(start: Bytes, value: nat, shift: nat, ahead: Bytes)
    requires ReadSoFar(start, value, shift, ahead) && ahead != [] && shift < 70
    ensures var next := WithBits(value, ahead[0] % 128, shift);
            if ahead[0] < 128 then ReadVarint(start, 0) == Varint(next, ahead[1..])
            else ReadSoFar(start, next, shift + 7, ahead[1..])
  {
    VarintStep(value, ahead[0] % 128, shift);
    var tail := ReadVarint(ahead[1..], shift + 7);
    if tail.Varint? {
      TailAbove(value, ahead[0] % 128, tail.value, shift);
    }
  }

  lemma SevenMoreBits(shift: nat)
    ensures Pow2(shift + 7) == 128 * Pow2(shift)
  {
    Pow2Add(7, shift);
    assert Pow2(7) == 128;
  }

  lemma TimesAtMost(a: nat, b: nat, k: nat)
    requires a <= b
    ensures a * k <= b * k
  {
  }

  /** The bits still to come sit above the byte just read. */
  lemma TailAbove(value: nat, low: nat, tail: nat, shift: nat)
    ensures value + (low + 128 * tail) * Pow2(shift) == value + low * Pow2(shift) + tail * Pow2(shift + 7)
  {
    SevenMoreBits(shift);
    var p := Pow2(shift);
    calc {
      (low + 128 * tail) * p;
      low * p + (128 * tail) * p;
      low * p + tail * (128 * p);
    }
  }

  // ----- the encoder -----

  datatype Payload = Number(n: nat) | Fixed64(eight: Bytes) | Delimited(run: Bytes) | Fixed32(four: Bytes)

  datatype Field = Field(number: nat, payload: Payload)

  function WireType(p: Payload): nat {
    match p
    case Number(_) => 0
    case Fixed64(_) => 1
    case Delimited(_) => 2
    case Fixed32(_) => 5
  }

  function EncodeVarint(n: nat): (e: Bytes)
    ensures |e| > 0
  {
    if n < 128 then [n] else [128 + n % 128] + EncodeVarint(n / 128)
  }

  function EncodePayload(p: Payload): Bytes {
    match p
    case Number(n) => EncodeVarint(n)
    case Fixed64(eight) => eight
    case Delimited(run) => EncodeVarint(|run|) + run
    case Fixed32(four) => four
  }

  function Encode(f: Field): (e: Bytes)
    ensures |e| > 0
  {
    EncodeVarint(8 * f.number + WireType(f.payload)) + EncodePayload(f.payload)
  }

  function EncodeAll(fs: seq<Field>): Bytes {
    if fs == [] then [] else Encode(fs[0]) + EncodeAll(fs[1..])
  }

  /** What ten varint bytes can carry. */
  predicate Fits(n: nat) {
    n < Pow2(70)
  }

  predicate Encodable(f: Field) {
    && Fits(8 * f.number + WireType(f.payload))
    && match f.payload
       case Number(n) => Fits(n)
       case Fixed64(eight) => |eight| == 8
       case Delimited(run) => Fits(|run|)
       case Fixed32(four) => |four| == 4
  }

  function Seen(f: Field): Yield {
    Yield(f.number, match f.payload
                    case Number(n) => Int(n)
                    case Fixed64(eight) => Run(eight)
                    case Delimited(run) => Run(run)
                    case Fixed32(four) => Run(four))
  }

  function SeenAll(fs: seq<Field>): seq<Yield> {
    seq(|fs|, i requires 0 <= i < |fs| => Seen(fs[i]))
  }

  /** A number of two or more bytes leaves room for the next byte. */
  lemma RoomForMore(n: nat, shift: nat)
    requires shift < 70 && 128 <= n < Pow2(70 - shift)
    ensures shift + 7 < 70 && n / 128 < Pow2(70 - (shift + 7))
  {
    assert Pow2(7) == 128;
    if shift >= 63 {
      Pow2AtMost(70 - shift, 7);
    }
    SevenMoreBits(63 - shift);
  }

  lemma {:induction false} VarintRoundTrip(n: nat, rest: Bytes, shift: nat)
    requires shift < 70 && n < Pow2(70 - shift)
    ensures ReadVarint(EncodeVarint(n) + rest, shift) == Varint(n, rest)
    decreases n
  {
    var data := EncodeVarint(n) + rest;
    if n < 128 {
      assert data[1..] == rest;
    } else {
      RoomForMore(n, shift);
      VarintRoundTrip(n / 128, rest, shift + 7);
      assert data[1..] == EncodeVarint(n / 128) + rest;
    }
  }

  lemma {:induction false} Pow2AtMost(m: nat, n: nat)
    requires m <= n
    ensures Pow2(m) <= Pow2(n)
  {
    if m < n {
      Pow2AtMost(m, n - 1);
    }
  }

  /** A varint cut short is reported as truncated. */
  lemma {:induction false} VarintPrefixRaises(n: nat, k: nat, shift: nat)
    requires shift < 70 && n < Pow2(70 - shift) && k < |EncodeVarint(n)|
    ensures ReadVarint(EncodeVarint(n)[..k], shift) == VarintError(Truncated)
    decreases n
  {
    if k > 0 {
      RoomForMore(n, shift);
      VarintPrefixRaises(n / 128, k - 1, shift + 7);
      assert EncodeVarint(n)[..k][1..] == EncodeVarint(n / 128)[..k - 1];
    }
  }

  lemma PayloadRoundTrip(f: Field, rest: Bytes)
    requires Encodable(f)
    ensures ReadPayload(f.number, WireType(f.payload), EncodePayload(f.payload) + rest) == Step(Seen(f), rest)
  {
    match f.payload {
      case Number(n) => VarintRoundTrip(n, rest, 0);
      case Delimited(run) =>
        assert EncodePayload(f.payload) + rest == EncodeVarint(|run|) + (run + rest);
        VarintRoundTrip(|run|, run + rest, 0);
      case Fixed64(eight) =>
      case Fixed32(four) =>
    }
  }

  /** A tag gives its number and wire type back, and leaves the payload. */
  lemma TagThenPayload(f: Field, data: Bytes)
    requires Encodable(f)
    ensures ReadField(EncodeVarint(8 * f.number + WireType(f.payload)) + data) == ReadPayload(f.number, WireType(f.payload), data)
  {
    var tag := 8 * f.number + WireType(f.payload);
    VarintRoundTrip(tag, data, 0);
    assert tag / 8 == f.number && tag % 8 == WireType(f.payload);
  }

  lemma FieldRoundTrip(f: Field, rest: Bytes)
    requires Encodable(f)
    ensures ReadField(Encode(f) + rest) == Step(Seen(f), rest)
  {
    var payload := EncodePayload(f.payload);
    Associate(EncodeVarint(8 * f.number + WireType(f.payload)), payload, rest);
    TagThenPayload(f, payload + rest);
    PayloadRoundTrip(f, rest);
  }

  lemma Associate<T>(a: seq<T>, b: seq<T>, c: seq<T>)
    ensures (a + b) + c == a + (b + c)
  {
  }

  lemma FirstField(f: Field, rest: Bytes)
    requires Encodable(f)
    ensures Fields(Encode(f) + rest) == Decoded([Seen(f)] + Fields(rest).fields, Fields(rest).error)
  {
    FieldRoundTrip(f, rest);
  }

  /** Decoding an encoded list of fields yields exactly those fields, and goes on with what follows. */
  lemma {:induction false} FieldsRoundTrip(fs: seq<Field>, rest: Bytes)
    requires forall f :: f in fs ==> Encodable(f)
    ensures Fields(EncodeAll(fs) + rest) == Decoded(SeenAll(fs) + Fields(rest).fields, Fields(rest).error)
    decreases fs
  {
    if fs == [] {
      assert EncodeAll(fs) + rest == rest;
      assert SeenAll(fs) + Fields(rest).fields == Fields(rest).fields;
    } else {
      var first, others := Encode(fs[0]), EncodeAll(fs[1..]);
      Associate(first, others, rest);
      FirstField(fs[0], others + rest);
      FieldsRoundTrip(fs[1..], rest);
      assert SeenAll(fs) == [Seen(fs[0])] + SeenAll(fs[1..]);
      Associate([Seen(fs[0])], SeenAll(fs[1..]), Fields(rest).fields);
    }
  }

  lemma DecodeInvertsEncode(fs: seq<Field>)
    requires forall f :: f in fs ==> Encodable(f)
    ensures Fields(EncodeAll(fs)) == Decoded(SeenAll(fs), None)
  {
    FieldsRoundTrip(fs, []);
    assert EncodeAll(fs) + [] == EncodeAll(fs);
    assert SeenAll(fs) + [] == SeenAll(fs);
  }

  lemma PayloadPrefixRaises(f: Field, k: nat)
    requires Encodable(f) && k < |EncodePayload(f.payload)|
    ensures ReadPayload(f.number, WireType(f.payload), EncodePayload(f.payload)[..k]).StepError?
  {
    match f.payload {
      case Number(n) => VarintPrefixRaises(n, k, 0);
      case Delimited(run) =>
        var length := EncodeVarint(|run|);
        if k < |length| {
          assert EncodePayload(f.payload)[..k] == length[..k];
          VarintPrefixRaises(|run|, k, 0);
        } else {
          assert EncodePayload(f.payload)[..k] == length + run[..k - |length|];
          VarintRoundTrip(|run|, run[..k - |length|], 0);
        }
      case Fixed64(eight) =>
      case Fixed32(four) =>
    }
  }

  lemma FieldPrefixRaises(f: Field, k: nat)
    requires Encodable(f) && 0 < k < |Encode(f)|
    ensures ReadField(Encode(f)[..k]).StepError?
  {
    var tag := 8 * f.number + WireType(f.payload);
    var head, payload := EncodeVarint(tag), EncodePayload(f.payload);
    if k < |head| {
      assert Encode(f)[..k] == head[..k];
      VarintPrefixRaises(tag, k, 0);
    } else {
      assert Encode(f)[..k] == head + payload[..k - |head|];
      TagThenPayload(f, payload[..k - |head|]);
      PayloadPrefixRaises(f, k - |head|);
    }
  }

  /** Data cut inside a field yields every complete field before the cut and then raises. */
  lemma CutFieldRaises(fs: seq<Field>, f: Field, k: nat)
    requires (forall g :: g in fs ==> Encodable(g)) && Encodable(f) && 0 < k < |Encode(f)|
    ensures var decoded := Fields(EncodeAll(fs) + Encode(f)[..k]);
            decoded.fields == SeenAll(fs) && decoded.error.Some?
  {
    FieldPrefixRaises(f, k);
    FieldsRoundTrip(fs, Encode(f)[..k]);
    assert SeenAll(fs) + [] == SeenAll(fs);
  }

  /** A field of any other wire type raises, after all the fields before it. */
  lemma UnknownWireTypeRaises(fs: seq<Field>, number: nat, wire: nat, rest: Bytes)
    requires (forall g :: g in fs ==> Encodable(g)) && wire < 8 && wire !in {0, 1, 2, 5} && Fits(8 * number + wire)
    ensures Fields(EncodeAll(fs) + (EncodeVarint(8 * number + wire) + rest)) == Decoded(SeenAll(fs), Some(UnsupportedWireType))
  {
    UnknownFieldRaises(number, wire, rest);
    FieldsRoundTrip(fs, EncodeVarint(8 * number + wire) + rest);
    assert SeenAll(fs) + [] == SeenAll(fs);
  }

  lemma UnknownFieldRaises(number: nat, wire: nat, rest: Bytes)
    requires wire < 8 && wire !in {0, 1, 2, 5} && Fits(8 * number + wire)
    ensures Fields(EncodeVarint(8 * number + wire) + rest) == Decoded([], Some(UnsupportedWireType))
  {
    var tag := 8 * number + wire;
    TagSplits(number, wire);
    VarintRoundTrip(tag, rest, 0);
    assert ReadField(EncodeVarint(tag) + rest) == ReadPayload(number, wire, rest);
  }

  lemma TagSplits(number: nat, wire: nat)
    requires wire < 8
    ensures (8 * number + wire) / 8 == number && (8 * number + wire) % 8 == wire
  {
  }

  /** A varint whose first ten bytes all go on raises. */
  lemma {:induction false} OverlongVarintRaises(data: Bytes, shift: nat)
    requires shift <= 70 && shift % 7 == 0 && 7 * |data| >= 70 - shift
    requires forall i :: 0 <= i < |data| && 7 * i < 70 - shift ==> data[i] >= 128
    ensures ReadVarint(data, shift) == VarintError(InvalidVarint)
    decreases 70 - shift
  {
    if shift < 70 {
      OverlongVarintRaises(data[1..], shift + 7);
    }
  }

  // ----- layer counts -----

  datatype LayerState = LayerState(name: Option<Bytes>, count: nat)

  /** One field of a layer: a name must be bytes. */
  function LayerStep(state: LayerState, y: Yield): Result<LayerState, WireError> {
    if y.number == 1 then
      if y.value.Run? then Ok(state.(name := Some(y.value.bytes))) else Err(WrongType)
    else if y.number == 2 then Ok(state.(count := state.count + 1))
    else Ok(state)
  }

  function LayerFold(state: LayerState, ys: seq<Yield>): Result<LayerState, WireError>
    decreases |ys|
  {
    if ys == [] then Ok(state)
    else
      var next := LayerStep(state, ys[0]);
      if next.Err? then next else LayerFold(next.value, ys[1..])
  }

  function Layer(data: Bytes): Result<LayerState, WireError> {
    var decoded := Fields(data);
    var state := LayerFold(LayerState(None, 0), decoded.fields);
    if state.Ok? && decoded.error.Some? then Err(decoded.error.value) else state
  }

  type Counts = map<Bytes, nat>

  function TileStep(counts: Counts, y: Yield): Result<Counts, WireError> {
    if y.number != 3 then Ok(counts)
    else if y.value.Int? then Err(WrongType)
    else
      var layer := Layer(y.value.bytes);
      if layer.Err? then Err(layer.error)
      else if layer.value.name.Some? && layer.value.name.value != []
      then Ok(counts[layer.value.name.value := layer.value.count])
      else Ok(counts)
  }

  function TileFold(counts: Counts, ys: seq<Yield>): Result<Counts, WireError>
    decreases |ys|
  {
    if ys == [] then Ok(counts)
    else
      var next := TileStep(counts, ys[0]);
      if next.Err? then next else TileFold(next.value, ys[1..])
  }

  function Tile(data: Bytes): Result<Counts, WireError> {
    var decoded := Fields(data);
    var counts := TileFold(map[], decoded.fields);
    if counts.Ok? && decoded.error.Some? then Err(decoded.error.value) else counts
  }

  method InspectLayer(data: Bytes) returns (result: Result<LayerState, WireError>)
    ensures result == Layer(data)
  {
    var reader := new FieldReader(data);
    assert reader.Ahead() == data;
    var decoded := reader.AllFields();
    var name: Option<Bytes>, count: nat := None, 0;
    for i := 0 to |decoded.fields|
      invariant LayerFold(LayerState(name, count), decoded.fields[i..]) == LayerFold(LayerState(None, 0), decoded.fields)
    {
      var y := decoded.fields[i];
      assert decoded.fields[i..][1..] == decoded.fields[i + 1..];
      if y.number == 1 {
        if y.value.Int? {
          return Err(WrongType);
        }
        name := Some(y.value.bytes);
      } else if y.number == 2 {
        count := count + 1;
      }
    }
    if decoded.error.Some? {
      return Err(decoded.error.value);
    }
    return Ok(LayerState(name, count));
  }

  method LayerCounts(data: Bytes) returns (result: Result<Counts, WireError>)
    ensures result == Tile(data)
  {
    var reader := new FieldReader(data);
    assert reader.Ahead() == data;
    var decoded := reader.AllFields();
    var counts: Counts := map[];
    for i := 0 to |decoded.fields|
      invariant TileFold(counts, decoded.fields[i..]) == TileFold(map[], decoded.fields)
    {
      var y := decoded.fields[i];
      assert decoded.fields[i..][1..] == decoded.fields[i + 1..];
      if y.number == 3 {
        if y.value.Int? {
          return Err(WrongType);
        }
        var layer := InspectLayer(y.value.bytes);
        if layer.Err? {
          return Err(layer.error);
        }
        if layer.value.name.Some? && layer.value.name.value != [] {
          counts := counts[layer.value.name.value := layer.value.count];
        }
      }
    }
    if decoded.error.Some? {
      return Err(decoded.error.value);
    }
    return Ok(counts);
  }

  /** A layer as its list of fields: one name among any other fields, or none, which counts as an empty one; features are
      the fields numbered 2. */
  predicate IsLayer(fs: seq<Field>, name: Bytes) {
    && (forall f :: f in fs ==> Encodable(f))
    && (forall i :: 0 <= i < |fs| && fs[i].number == 1 ==> fs[i].payload == Delimited(name))
    && (name != [] ==> exists i :: 0 <= i < |fs| && fs[i].number == 1)
  }

  /** How many fields of a layer are features. */
  function FeatureCount(fs: seq<Field>): nat {
    if fs == [] then 0 else (if fs[0].number == 2 then 1 else 0) + FeatureCount(fs[1..])
  }

  lemma {:induction false} LayerFoldCounts(state: LayerState, fs: seq<Field>, name: Bytes)
    requires forall i :: 0 <= i < |fs| && fs[i].number == 1 ==> fs[i].payload == Delimited(name)
    ensures LayerFold(state, SeenAll(fs))
         == Ok(LayerState(if exists i :: 0 <= i < |fs| && fs[i].number == 1 then Some(name) else state.name,
                          state.count + FeatureCount(fs)))
    decreases fs
  {
    if fs == [] {
    } else {
      var rest := fs[1..];
      assert SeenAll(fs)[1..] == SeenAll(rest);
      var next := LayerStep(state, Seen(fs[0])).value;
      LayerFoldCounts(next, rest, name);
      assert forall i :: 0 <= i < |rest| ==> rest[i] == fs[i + 1];
      if exists i :: 0 <= i < |fs| && fs[i].number == 1 {
        var i :| 0 <= i < |fs| && fs[i].number == 1;
        assert i > 0 ==> rest[i - 1].number == 1;
      }
    }
  }

  function TileFields(layers: seq<seq<Field>>): seq<Field> {
    seq(|layers|, i requires 0 <= i < |layers| => Field(3, Delimited(EncodeAll(layers[i]))))
  }

  /** `before` with the counts of these layers: a layer without a name counts for nothing, and of layers with the same name
      the last one counts. */
  ghost predicate Counted(before: Counts, after: Counts, layers: seq<seq<Field>>, names: seq<Bytes>)
    requires |layers| == |names|
  {
    && (forall n :: n in after <==> n in before || (n != [] && n in names))
    && (forall i :: 0 <= i < |names| && LastNamed(names, i) ==> names[i] in after && after[names[i]] == FeatureCount(layers[i]))
    && (forall n :: n in before && (n == [] || n !in names) ==> n in after && after[n] == before[n])
  }

  /** The name is there, and no later one is the same. */
  predicate LastNamed(names: seq<Bytes>, i: nat)
    requires i < |names|
  {
    names[i] != [] && forall j :: i < j < |names| ==> names[j] != names[i]
  }

  function CountLayer(counts: Counts, layer: seq<Field>, name: Bytes): Counts {
    if name == [] then counts else counts[name := FeatureCount(layer)]
  }

  lemma TileStepCounts(counts: Counts, layer: seq<Field>, name: Bytes)
    requires IsLayer(layer, name)
    ensures TileStep(counts, Seen(Field(3, Delimited(EncodeAll(layer))))) == Ok(CountLayer(counts, layer, name))
  {
    DecodeInvertsEncode(layer);
    LayerFoldCounts(LayerState(None, 0), layer, name);
  }

  lemma {:induction false} TileFoldCounts(counts: Counts, layers: seq<seq<Field>>, names: seq<Bytes>)
    requires |layers| == |names|
    requires forall i :: 0 <= i < |layers| ==> IsLayer(layers[i], names[i])
    ensures var r := TileFold(counts, SeenAll(TileFields(layers)));
            r.Ok? && Counted(counts, r.value, layers, names)
    decreases layers
  {
    if layers != [] {
      var ys := SeenAll(TileFields(layers));
      assert ys[1..] == SeenAll(TileFields(layers[1..]));
      TileStepCounts(counts, layers[0], names[0]);
      TileFoldCounts(CountLayer(counts, layers[0], names[0]), layers[1..], names[1..]);
      CountedCons(counts, TileFold(counts, ys).value, layers, names);
    }
  }

  lemma CountedCons(before: Counts, after: Counts, layers: seq<seq<Field>>, names: seq<Bytes>)
    requires |layers| == |names| > 0
    requires Counted(CountLayer(before, layers[0], names[0]), after, layers[1..], names[1..])
    ensures Counted(before, after, layers, names)
  {
    assert names == [names[0]] + names[1..];
    forall i | 0 <= i < |names| && LastNamed(names, i)
      ensures names[i] in after && after[names[i]] == FeatureCount(layers[i])
    {
      if i > 0 {
        LaterIsLast(names, i);
        assert names[i] == names[1..][i - 1] && layers[i] == layers[1..][i - 1];
      } else {
        FirstIsLast(names);
      }
    }
  }

  lemma LaterIsLast(names: seq<Bytes>, i: nat)
    requires 0 < i < |names| && LastNamed(names, i)
    ensures LastNamed(names[1..], i - 1)
  {
    forall j | i - 1 < j < |names[1..]|
      ensures names[1..][j] != names[1..][i - 1]
    {
      assert names[1..][j] == names[j + 1];
    }
  }

  lemma FirstIsLast(names: seq<Bytes>)
    requires names != [] && LastNamed(names, 0)
    ensures names[0] !in names[1..]
  {
  }

  lemma TileFieldsEncodable(layers: seq<seq<Field>>)
    requires forall i :: 0 <= i < |layers| ==> Fits(|EncodeAll(layers[i])|)
    ensures forall f :: f in TileFields(layers) ==> Encodable(f)
  {
    assert Fits(26) by {
      assert Pow2(5) == 32;
      Pow2AtMost(5, 70);
    }
    forall f | f in TileFields(layers)
      ensures Encodable(f)
    {
    }
  }

  /** The counts of an encoded tile are the feature counts of its named layers, the last one of each name. */
  lemma TileCountsFeatures(layers: seq<seq<Field>>, names: seq<Bytes>)
    requires |layers| == |names|
    requires forall i :: 0 <= i < |layers| ==> IsLayer(layers[i], names[i])
    requires forall i :: 0 <= i < |layers| ==> Fits(|EncodeAll(layers[i])|)
    ensures var r := Tile(EncodeAll(TileFields(layers)));
            r.Ok? && Counted(map[], r.value, layers, names)
  {
    TileFieldsEncodable(layers);
    DecodeInvertsEncode(TileFields(layers));
    TileFoldCounts(map[], layers, names);
  }

  // ----- what raises -----

  /** Every name among these is bytes. */
  predicate GoodNames(ys: seq<Yield>) {
    forall i :: 0 <= i < |ys| && ys[i].number == 1 ==> ys[i].value.Run?
  }

  /** Data that decodes to its end, with names that are bytes. */
  predicate GoodLayer(data: Bytes) {
    Fields(data).error == None && GoodNames(Fields(data).fields)
  }

  /** Every layer among these is bytes, and a good one. */
  predicate GoodLayers(ys: seq<Yield>) {
    forall i :: 0 <= i < |ys| && ys[i].number == 3 ==> ys[i].value.Run? && GoodLayer(ys[i].value.bytes)
  }

  lemma {:induction false} LayerFoldSucceedsIff(state: LayerState, ys: seq<Yield>)
    ensures LayerFold(state, ys).Ok? <==> GoodNames(ys)
    decreases |ys|
  {
    if ys != [] {
      if LayerStep(state, ys[0]).Ok? {
        LayerFoldSucceedsIff(LayerStep(state, ys[0]).value, ys[1..]);
      }
      assert ys == [ys[0]] + ys[1..];
      assert GoodNames(ys) <==> (ys[0].number == 1 ==> ys[0].value.Run?) && GoodNames(ys[1..]) by {
        assert forall i :: 0 <= i < |ys[1..]| ==> ys[1..][i] == ys[i + 1];
        assert forall i :: 0 < i < |ys| ==> ys[i] == ys[1..][i - 1];
      }
    }
  }

  lemma LayerSucceedsIff(data: Bytes)
    ensures Layer(data).Ok? <==> GoodLayer(data)
  {
    LayerFoldSucceedsIff(LayerState(None, 0), Fields(data).fields);
  }

  lemma {:induction false} TileFoldSucceedsIff(counts: Counts, ys: seq<Yield>)
    ensures TileFold(counts, ys).Ok? <==> GoodLayers(ys)
    decreases |ys|
  {
    if ys != [] {
      if ys[0].value.Run? {
        LayerSucceedsIff(ys[0].value.bytes);
      }
      if TileStep(counts, ys[0]).Ok? {
        TileFoldSucceedsIff(TileStep(counts, ys[0]).value, ys[1..]);
      }
      assert GoodLayers(ys) <==> GoodLayers([ys[0]]) && GoodLayers(ys[1..]) by {
        assert forall i :: 0 <= i < |ys[1..]| ==> ys[1..][i] == ys[i + 1];
        assert forall i :: 0 < i < |ys| ==> ys[i] == ys[1..][i - 1];
        assert [ys[0]][0] == ys[0];
      }
      assert [ys[0]][0] == ys[0];
    }
  }

  /** A tile is counted exactly if it decodes to its end and each of its layers is bytes that do so too, with names that are
      bytes; anything else raises. */
  lemma TileSucceedsIff(data: Bytes)
    ensures Tile(data).Ok? <==> Fields(data).error == None && GoodLayers(Fields(data).fields)
  {
    TileFoldSucceedsIff(map[], Fields(data).fields);
  }

  /** A tile that is cut inside a field raises, whatever comes before the cut. */
  lemma CutTileRaises(fs: seq<Field>, f: Field, k: nat)
    requires (forall g :: g in fs ==> Encodable(g)) && Encodable(f) && 0 < k < |Encode(f)|
    ensures Tile(EncodeAll(fs) + Encode(f)[..k]).Err?
  {
    CutFieldRaises(fs, f, k);
    TileSucceedsIff(EncodeAll(fs) + Encode(f)[..k]);
  }

  /** So does one with a layer that is cut. */
  lemma CutLayerRaises(before: seq<Field>, layer: Bytes, after: seq<Field>, fs: seq<Field>, f: Field, k: nat)
    requires (forall g :: g in fs ==> Encodable(g)) && Encodable(f) && 0 < k < |Encode(f)|
    requires layer == EncodeAll(fs) + Encode(f)[..k]
    requires forall g :: g in before + [Field(3, Delimited(layer))] + after ==> Encodable(g)
    ensures Tile(EncodeAll(before + [Field(3, Delimited(layer))] + after)).Err?
  {
    var all := before + [Field(3, Delimited(layer))] + after;
    CutFieldRaises(fs, f, k);
    DecodeInvertsEncode(all);
    TileSucceedsIff(EncodeAll(all));
    assert SeenAll(all)[|before|] == Seen(all[|before|]);
  }
}
