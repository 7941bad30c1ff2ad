/** The notebook envelope's codec: length-prefixed parts, sealed records and the associated
    data that binds a record to its identity. Parts are byte strings; a byte is 0 to 255. */
module Envelope {
  import opened Basics

  newtype Byte = b: int | 0 <= b < 256

  type Bytes = seq<Byte>

  const LIMIT := 0x1_0000_0000

  datatype SealedRecord = SealedRecord(wrappedNonce: Bytes, wrappedKey: Bytes, fieldNonce: Bytes, fieldText: Bytes)

  datatype Context = Context(tenant: Bytes, field: Bytes, row: Bytes, version: Bytes)

  datatype Malformed = TruncatedPrefix | LengthOutOfRange | TrailingBytes

  /** `struct.pack(">I", n)` refuses what does not fit 32 bits. */
  function Pack(n: nat): Option<Bytes> {
    if n >= LIMIT then None
    else Some([(n / 0x100_0000) as Byte, (n / 0x1_0000 % 0x100) as Byte, (n / 0x100 % 0x100) as Byte, (n % 0x100) as Byte])
  }

  /** `struct.unpack(">I", ...)` of four bytes. */
  function Unpack(b: Bytes): nat
    requires |b| == 4
  {
    ((b[0] as nat * 0x100 + b[1] as nat) * 0x100 + b[2] as nat) * 0x100 + b[3] as nat
  }

  /** `_lp`. */
  function Prefixed(part: Bytes): Option<Bytes> {
    var prefix := Pack(|part|);
    if prefix.None? then None else Some(prefix.value + part)
  }

  /** The parts one after another; None when one of them is too long to pack. */
  function Encode(parts: seq<Bytes>): Option<Bytes> {
    if parts == [] then Some([])
    else
      var head, rest := Prefixed(parts[0]), Encode(parts[1..]);
      if head.None? || rest.None? then None else Some(head.value + rest.value)
  }

  function ToBytes(r: SealedRecord): Option<Bytes> {
    Encode([r.wrappedNonce, r.wrappedKey, r.fieldNonce, r.fieldText])
  }

  function AssociatedData(c: Context, layer: Bytes): Option<Bytes> {
    Encode([layer, c.tenant, c.field, c.row, c.version])
  }

  // ---------- decoding ----------

  /** Exactly `count` parts and nothing after them. */
  function Decode(blob: Bytes, count: nat): (r: Result<seq<Bytes>, Malformed>)
    ensures r.Ok? ==> |r.value| == count
  {
    if count == 0 then if blob == [] then Ok([]) else Err(TrailingBytes)
    else if |blob| < 4 then Err(TruncatedPrefix)
    else
      var n := Unpack(blob[..4]);
      if 4 + n > |blob| then Err(LengthOutOfRange)
      else match Decode(blob[4 + n..], count - 1)
        case Err(e) => Err(e)
        case Ok(rest) => Ok([blob[4..4 + n]] + rest)
  }

  /** Four parts make a record. */
  function Parsed(blob: Bytes): Result<SealedRecord, Malformed> {
    match Decode(blob, 4)
    case Err(e) => Err(e)
    case Ok(parts) => Ok(SealedRecord(parts[0], parts[1], parts[2], parts[3]))
  }

  /** A window into the rest of the blob is one into the blob. */
  lemma Window(blob: Bytes, off: nat, lo: nat, hi: nat)
    requires lo <= hi && off + hi <= |blob|
    ensures blob[off..][lo..hi] == blob[off + lo..off + hi] && blob[off..][hi..] == blob[off + hi..]
  {
  }

  /** Decoding from an offset, by the part found there. */
  lemma DecodeAt(blob: Bytes, off: nat, count: nat)
    requires off <= |blob| && count > 0
    ensures off + 4 > |blob| ==> Decode(blob[off..], count) == Err(TruncatedPrefix)
    ensures off + 4 <= |blob| ==> var n := Unpack(blob[off..off + 4]);
      if off + 4 + n > |blob| then Decode(blob[off..], count) == Err(LengthOutOfRange)
      else Decode(blob[off..], count) == After([blob[off + 4..off + 4 + n]], Decode(blob[off + 4 + n..], count - 1))
  {
    if off + 4 <= |blob| {
      Window(blob, off, 0, 4);
      var n := Unpack(blob[off..off + 4]);
      if off + 4 + n <= |blob| {
        Window(blob, off, 4, 4 + n);
      }
    }
  }

  /** The parts read so far and the rest from the offset make up the decoded blob. */
  ghost predicate Reading(blob: Bytes, vals: seq<Bytes>, off: nat, count: nat) {
    off <= |blob| && Decode(blob, 4) == After(vals, Decode(blob[off..], count))
  }

  lemma ReadsOn(blob: Bytes, vals: seq<Bytes>, off: nat, count: nat, n: nat)
    requires Reading(blob, vals, off, count) && count > 0
    requires off + 4 <= |blob| && n == Unpack(blob[off..off + 4]) && off + 4 + n <= |blob|
    ensures Reading(blob, vals + [blob[off + 4..off + 4 + n]], off + 4 + n, count - 1)
  {
    DecodeAt(blob, off, count);
    AfterOne(vals, blob[off + 4..off + 4 + n], Decode(blob[off + 4 + n..], count - 1));
  }

  lemma ReadFails(blob: Bytes, vals: seq<Bytes>, off: nat, count: nat)
    requires Reading(blob, vals, off, count) && count > 0
    ensures off + 4 > |blob| ==> Parsed(blob) == Err(TruncatedPrefix)
    ensures off + 4 <= |blob| < off + 4 + Unpack(blob[off..off + 4]) ==> Parsed(blob) == Err(LengthOutOfRange)
  {
    DecodeAt(blob, off, count);
  }

  lemma ReadEnds(blob: Bytes, vals: seq<Bytes>, off: nat)
    requires Reading(blob, vals, off, 0) && |vals| == 4
    ensures Parsed(blob) == if off != |blob| then Err(TrailingBytes)
                            else Ok(SealedRecord(vals[0], vals[1], vals[2], vals[3]))
  {
    assert off == |blob| ==> blob[off..] == [] && vals + [] == vals;
  }

  /** `from_bytes`: four turns over the blob with a moving offset. */
  method FromBytes(blob: Bytes) returns (r: Result<SealedRecord, Malformed>)
    ensures r == Parsed(blob)
  {
    var vals: seq<Bytes>, off: nat := [], 0;
    assert blob[0..] == blob;
    AfterNone(Decode(blob, 4));
    for turn := 0 to 4
      invariant |vals| == turn && Reading(blob, vals, off, 4 - turn)
    {
      ReadFails(blob, vals, off, 4 - turn);
      if off + 4 > |blob| {
        return Err(TruncatedPrefix);
      }
      var n := Unpack(blob[off..off + 4]);
      if off + 4 + n > |blob| {
        return Err(LengthOutOfRange);
      }
      ReadsOn(blob, vals, off, 4 - turn, n);
      vals := vals + [blob[off + 4..off + 4 + n]];
      off := off + 4 + n;
    }
    ReadEnds(blob, vals, off);
    if off != |blob| {
      return Err(TrailingBytes);
    }
    r := Ok(SealedRecord(vals[0], vals[1], vals[2], vals[3]));
  }

  function After(vals: seq<Bytes>, rest: Result<seq<Bytes>, Malformed>): Result<seq<Bytes>, Malformed> {
    match rest
    case Err(e) => Err(e)
    case Ok(parts) => Ok(vals + parts)
  }

  lemma AfterNone(rest: Result<seq<Bytes>, Malformed>)
    ensures After([], rest) == rest
  {
    if rest.Ok? {
      assert [] + rest.value == rest.value;
    }
  }

  lemma AfterOne(vals: seq<Bytes>, part: Bytes, rest: Result<seq<Bytes>, Malformed>)
    ensures After(vals, After([part], rest)) == After(vals + [part], rest)
  {
    if rest.Ok? {
      assert vals + ([part] + rest.value) == vals + [part] + rest.value;
    }
  }

  // ---------- round trips ----------

  lemma UnpackPacks(n: nat)
    requires n < LIMIT
    ensures |Pack(n).value| == 4 && Unpack(Pack(n).value) == n
  {
    var a, b, c := n / 0x100, n / 0x1_0000, n / 0x100_0000;
    assert b == a / 0x100 && c == b / 0x100 && c < 0x100;
    assert c * 0x100 + b % 0x100 == b && b * 0x100 + a % 0x100 == a && a * 0x100 + n % 0x100 == n;
    var p := Pack(n).value;
    assert p[0] as nat == c && p[1] as nat == b % 0x100 && p[2] as nat == a % 0x100 && p[3] as nat == n % 0x100;
    assert Unpack(p) == ((c * 0x100 + b % 0x100) * 0x100 + a % 0x100) * 0x100 + n % 0x100;
  }

  lemma PackUnpacks(b: Bytes)
    requires |b| == 4
    ensures Unpack(b) < LIMIT && Pack(Unpack(b)) == Some(b)
  {
    var n, mid := Unpack(b), b[0] as nat * 0x100 + b[1] as nat;
    var high := mid * 0x100 + b[2] as nat;
    assert n / 0x100 == high && n % 0x100 == b[3] as nat;
    assert high / 0x100 == mid && high % 0x100 == b[2] as nat;
    assert n / 0x1_0000 == mid && mid % 0x100 == b[1] as nat && mid / 0x100 == b[0] as nat;
    assert n / 0x100_0000 == b[0] as nat;
    var p := Pack(n).value;
    assert p[0] == b[0] && p[1] == b[1] && p[2] == b[2] && p[3] == b[3];
    assert p == b;
  }

  /** Encoding succeeds exactly when every part is shorter than 2^32 bytes. */
  lemma {:induction false} EncodesExactlyWhenShort(parts: seq<Bytes>)
    ensures Encode(parts).Some? <==> forall i | 0 <= i < |parts| :: |parts[i]| < LIMIT
  {
    if parts != [] {
      EncodesExactlyWhenShort(parts[1..]);
      assert parts == [parts[0]] + parts[1..];
    }
  }

  /** What was encoded decodes to the same parts. */
  lemma {:induction false} DecodeEncodes(parts: seq<Bytes>)
    requires Encode(parts).Some?
    ensures Decode(Encode(parts).value, |parts|) == Ok(parts)
  {
    if parts != [] {
      var blob, rest := Encode(parts).value, Encode(parts[1..]).value;
      UnpackPacks(|parts[0]|);
      assert blob == Pack(|parts[0]|).value + parts[0] + rest;
      assert blob[..4] == Pack(|parts[0]|).value;
      assert blob[4..4 + |parts[0]|] == parts[0] && blob[4 + |parts[0]|..] == rest;
      DecodeEncodes(parts[1..]);
      assert [parts[0]] + parts[1..] == parts;
    }
  }

  /** What decodes is the encoding of its parts: no second spelling is accepted. */
  lemma {:induction false} EncodeDecodes(blob: Bytes, count: nat)
    requires Decode(blob, count).Ok?
    ensures |Decode(blob, count).value| == count && Encode(Decode(blob, count).value) == Some(blob)
  {
    if count > 0 {
      var n := Unpack(blob[..4]);
      var rest := Decode(blob[4 + n..], count - 1).value;
      EncodeDecodes(blob[4 + n..], count - 1);
      PackUnpacks(blob[..4]);
      assert Decode(blob, count).value[1..] == rest;
      assert blob == blob[..4] + blob[4..4 + n] + blob[4 + n..];
    }
  }

  /** The two directions are exact inverses: every record with parts below 2^32 bytes comes
      back, and every blob that is accepted is the encoding of what it was read as. */
  lemma RecordsRoundTrip(r: SealedRecord, blob: Bytes)
    ensures ToBytes(r).Some? <==>
      |r.wrappedNonce| < LIMIT && |r.wrappedKey| < LIMIT && |r.fieldNonce| < LIMIT && |r.fieldText| < LIMIT
    ensures ToBytes(r) == Some(blob) <==> Parsed(blob) == Ok(r)
  {
    var parts := [r.wrappedNonce, r.wrappedKey, r.fieldNonce, r.fieldText];
    EncodesExactlyWhenShort(parts);
    assert forall i | 0 <= i < 4 :: parts[i] in {parts[0], parts[1], parts[2], parts[3]};
    if ToBytes(r) == Some(blob) {
      DecodeEncodes(parts);
    }
    if Parsed(blob) == Ok(r) {
      EncodeDecodes(blob, 4);
      assert Decode(blob, 4).value == parts;
    }
  }

  /** Two identities, layers included, never share associated data. */
  lemma AssociatedDataIsInjective(c: Context, layer: Bytes, c': Context, layer': Bytes)
    requires AssociatedData(c, layer).Some? && AssociatedData(c, layer) == AssociatedData(c', layer')
    ensures c == c' && layer == layer'
  {
    var parts := [layer, c.tenant, c.field, c.row, c.version];
    var parts' := [layer', c'.tenant, c'.field, c'.row, c'.version];
    DecodeEncodes(parts);
    DecodeEncodes(parts');
    assert parts == parts';
    assert parts[0] == parts'[0] && parts[1] == parts'[1] && parts[2] == parts'[2];
    assert parts[3] == parts'[3] && parts[4] == parts'[4];
  }
}
