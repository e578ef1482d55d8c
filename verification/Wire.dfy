/** The Orv packet header: serializing, deserializing, and splitting a packet into header and body. */
module Wire {
  import opened Basics
  import opened Bits
  import opened Versions

  type int32 = n: int | -0x8000_0000 <= n < 0x8000_0000
  type uint64 = n: nat | n < 0x1_0000_0000_0000_0000

  const LONG_HEADER_LEN := 10
  const SHORT_HEADER_LEN := 2
  const MAX_PACKET_SIZE := 1024

  datatype Header = Header(version: Version, shorthand: bool, typ: int32, id: uint64)

  /** The header as it survives the wire. */
  function Truncated(h: Header): Header {
    Header(Version(h.version.major % 16, h.version.minor % 16), h.shorthand, h.typ % 128,
           if h.shorthand then 0 else h.id)
  }

  // ---- serializing ----------------------------------------------------------------------------

  /** The k-th byte of an ID, most significant first. */
  function IdByte(id: uint64, k: nat): uint8
    requires k < 8
  {
    (id / Pow256(7 - k)) % 256
  }

  function IdBytes(id: uint64): seq<uint8> {
    seq(8, k requires 0 <= k < 8 => IdByte(id, k))
  }

  /** The type is cut to a byte before the masks apply. */
  function TypeByte(h: Header): uint8 {
    var b: uint8 := h.typ % 256;
    if h.shorthand then 128 + b % 128 else b % 128
  }

  /** Setting and clearing the shorthand bit, as the masks they are computed with. */
  lemma TypeByteIsBitwise(b: uint8)
    ensures Or(0x80, b) == 128 + b % 128
    ensures And(b, 0x7F) == b % 128
  {
    var high, low := b / 128, b % 128;
    SevenBits(high);
    AndMask(b, 7);
    OrSplits(1, 0, high, low, 7);
    ShlMultiplies(1, 7);
    ShlMultiplies(high, 7);
    ShlMultiplies(Or(1, high), 7);
    OrZero(low);
  }

  lemma SevenBits(bit: nat)
    requires bit < 2
    ensures Pow2(7) == 128 && Or(1, bit) == 1
  {
    assert Pow2(3) == 8;
    assert Pow2(5) == 32;
    OrHalves(1, bit);
  }

  /** Two bytes, and the ID most significant byte first unless shorthand is set. */
  function SerializeHeader(h: Header): (bs: seq<uint8>)
    ensures |bs| == if h.shorthand then SHORT_HEADER_LEN else LONG_HEADER_LEN
    ensures FromByte(bs[0]) == Truncated(h).version
    ensures (bs[1] >= 128 <==> h.shorthand) && bs[1] % 128 == Truncated(h).typ
    ensures !h.shorthand ==> BigEndian(bs[2..]) == h.id
  {
    FirstTwoBytes(h);
    BigEndianOfIdBytes(h.id, 8);
    var id := if h.shorthand then [] else IdBytes(h.id);
    assert IdBytes(h.id)[..8] == IdBytes(h.id);
    assert ([Byte(h.version), TypeByte(h)] + id)[2..] == id;
    [Byte(h.version), TypeByte(h)] + id
  }

  /** A whole packet; a nil payload has no bytes. */
  function Serialize(h: Header, payload: seq<uint8>): seq<uint8> {
    SerializeHeader(h) + payload
  }

  // ---- deserializing --------------------------------------------------------------------------

  function BigEndian(bs: seq<uint8>): nat {
    if bs == [] then 0 else 256 * BigEndian(bs[..|bs| - 1]) + bs[|bs| - 1]
  }

  lemma {:induction false} BigEndianBound(bs: seq<uint8>)
    ensures BigEndian(bs) < Pow256(|bs|)
  {
    if bs != [] {
      BigEndianBound(bs[..|bs| - 1]);
    }
  }

  /**
    What deserializing a byte string yields: a header and the unread bytes, or the byte number the
    error message names.
   */
  datatype Parse = Parsed(header: Header, rest: seq<uint8>) | ShortRead(named: nat)

  function ParseBytes(bs: seq<uint8>): Parse {
    if |bs| < 1 then ShortRead(1)
    else if |bs| < 2 then ShortRead(2)
    else
      var version, shorthand, typ := FromByte(bs[0]), bs[1] >= 128, bs[1] % 128;
      if shorthand then Parsed(Header(version, true, typ, 0), bs[2..])
      else if |bs| < LONG_HEADER_LEN then ShortRead(|bs|)
      else
        BigEndianBound(bs[2..10]);
        Pow256Is64Bits();
        Parsed(Header(version, false, typ, BigEndian(bs[2..10])), bs[10..])
  }

  /** A byte source that is consumed one byte at a time. */
  class Reader {
    const data: seq<uint8>
    var pos: nat

    ghost predicate Valid()
      reads this
    {
      pos <= |data|
    }

    function Rest(): seq<uint8>
      requires Valid()
      reads this
    {
      data[pos..]
    }

    constructor (data: seq<uint8>)
      ensures Valid() && Rest() == data
    {
      this.data := data;
      this.pos := 0;
    }

    /** None at the end of the data. */
    method ReadByte() returns (b: Option<uint8>)
      requires Valid()
      modifies this
      ensures Valid()
      ensures old(Rest()) == [] ==> b == None && Rest() == []
      ensures old(Rest()) != [] ==> b == Some(old(Rest())[0]) && Rest() == old(Rest())[1..]
    {
      if pos < |data| {
        b := Some(data[pos]);
        pos := pos + 1;
      } else {
        b := None;
      }
    }
  }

  method Deserialize(rd: Reader) returns (r: Parse)
    requires rd.Valid()
    modifies rd
    ensures rd.Valid()
    ensures r == ParseBytes(old(rd.Rest()))
    ensures r.Parsed? ==> rd.Rest() == r.rest
  {
    ghost var bs := rd.Rest();
    var b0 := rd.ReadByte();
    if b0.None? {
      return ShortRead(1);
    }
    var version := FromByte(b0.value);
    var b1 := rd.ReadByte();
    if b1.None? {
      return ShortRead(2);
    }
    var shorthand := b1.value >= 128;
    var typ := b1.value % 128;
    assert rd.Rest() == bs[2..];
    if shorthand {
      return Parsed(Header(version, shorthand, typ, 0), rd.Rest());
    }
    var id, named := ReadId(rd);
    if id.None? {
      return ShortRead(named);
    }
    assert bs[2..][..8] == bs[2..10] && bs[2..][8..] == bs[10..];
    r := Parsed(Header(version, shorthand, typ, id.value), rd.Rest());
  }

  /** A byte shifted past k others. */
  function InPlace(b: uint8, k: nat): nat {
    b * Pow256(k)
  }

  /** The eight ID bytes, each OR-ed into place; on a short read, the byte number that is reported. */
  method ReadId(rd: Reader) returns (id: Option<uint64>, named: nat)
    requires rd.Valid()
    modifies rd
    ensures rd.Valid()
    ensures |old(rd.Rest())| < 8 ==> id == None && named == |old(rd.Rest())| + 2
    ensures |old(rd.Rest())| >= 8 ==>
              id.Some? && id.value == BigEndian(old(rd.Rest())[..8]) && rd.Rest() == old(rd.Rest())[8..]
  {
    ghost var bs := rd.Rest();
    var acc: nat := 0;
    var i := 0;
    while i < 8
      invariant 0 <= i <= 8 && i <= |bs|
      invariant rd.Valid() && rd.Rest() == bs[i..]
      invariant acc == BigEndian(bs[..i]) * Pow256(8 - i)
    {
      var b := rd.ReadByte();
      if b.None? {
        return None, i + 2;
      }
      IdAccumulates(bs[..i], b.value, i);
      assert bs[..i + 1] == bs[..i] + [b.value];
      acc := Or(acc, InPlace(b.value, 7 - i));
      i := i + 1;
    }
    BigEndianBound(bs[..8]);
    Pow256Is64Bits();
    return Some(acc), 0;
  }

  /** OR-ing the next byte, shifted into its place, extends the big-endian value by that byte. */
  lemma IdAccumulates(seen: seq<uint8>, b: uint8, i: nat)
    requires i < 8 && |seen| == i
    ensures Or(BigEndian(seen) * Pow256(8 - i), InPlace(b, 7 - i)) == BigEndian(seen + [b]) * Pow256(7 - i)
  {
    var high, p := BigEndian(seen), Pow256(7 - i);
    Pow256IsPow2(8 - i);
    ShiftedByte(high, b, p);
    OrDisjoint(high, b * p, 8 * (8 - i));
    assert (seen + [b])[..i] == seen;
  }

  lemma ShiftedByte(high: nat, b: uint8, p: int)
    requires p > 0
    ensures 0 <= b * p < 256 * p
    ensures high * (256 * p) + b * p == (256 * high + b) * p
  {
  }

  // ---- the two directions ---------------------------------------------------------------------

  lemma {:induction false} BigEndianPrefix(bs: seq<uint8>, j: nat)
    requires j <= |bs|
    ensures BigEndian(bs) / Pow256(|bs| - j) == BigEndian(bs[..j])
    decreases |bs|
  {
    var n := |bs|;
    if j == n {
      assert bs[..j] == bs;
    } else {
      var init := bs[..n - 1];
      BigEndianPrefix(init, j);
      assert init[..j] == bs[..j];
      assert BigEndian(bs) / 256 == BigEndian(init);
      DivTwice(BigEndian(bs), Pow256(n - 1 - j));
    }
  }

  lemma IdBytesOfBigEndian(bs: seq<uint8>)
    requires |bs| == 8 && BigEndian(bs) < 0x1_0000_0000_0000_0000
    ensures IdBytes(BigEndian(bs)) == bs
  {
    forall k | 0 <= k < 8
      ensures IdByte(BigEndian(bs), k) == bs[k]
    {
      BigEndianPrefix(bs, k + 1);
      LastByte(bs[..k + 1]);
    }
  }

  lemma LastByte(bs: seq<uint8>)
    requires bs != []
    ensures BigEndian(bs) % 256 == bs[|bs| - 1]
  {
    LowByte(BigEndian(bs[..|bs| - 1]), bs[|bs| - 1]);
  }

  lemma LowByte(high: nat, low: uint8)
    ensures (256 * high + low) % 256 == low
  {
  }

  lemma {:induction false} BigEndianOfIdBytes(id: uint64, j: nat)
    requires j <= 8
    ensures BigEndian(IdBytes(id)[..j]) == id / Pow256(8 - j)
  {
    if j == 0 {
      Pow256Is64Bits();
    } else {
      BigEndianOfIdBytes(id, j - 1);
      assert IdBytes(id)[..j][..j - 1] == IdBytes(id)[..j - 1];
      DivTwice(id, Pow256(8 - j));
    }
  }

  /**
    Deserializing a serialized header recovers its truncation, and the payload is left unread;
    so exactly the headers that equal their truncation survive the trip.
   */
  lemma HeaderRoundTrip(h: Header, payload: seq<uint8>)
    ensures ParseBytes(Serialize(h, payload)) == Parsed(Truncated(h), payload)
    ensures ParseBytes(Serialize(h, payload)) == Parsed(h, payload) <==>
            Nibbles(h.version) && 0 <= h.typ < 128 && (h.shorthand ==> h.id == 0)
  {
    FirstTwoBytes(h);
    if h.shorthand {
      assert Serialize(h, payload)[2..] == payload;
    } else {
      LongHeaderParses(h, payload);
    }
    SurvivesIff(h);
  }

  lemma FirstTwoBytes(h: Header)
    ensures FromByte(Byte(h.version)) == Truncated(h).version
    ensures (TypeByte(h) >= 128 <==> h.shorthand) && TypeByte(h) % 128 == Truncated(h).typ
  {
    LowSevenBits(h.typ, h.typ % 256);
    ByteRoundTrips(h.version, 0);
  }

  lemma LowSevenBits(n: int, b: nat)
    requires b == n % 256
    ensures b % 128 == n % 128 == (128 + b % 128) % 128 == (b % 128) % 128
  {
  }

  lemma LongHeaderParses(h: Header, payload: seq<uint8>)
    requires !h.shorthand
    ensures ParseBytes(Serialize(h, payload)) == Parsed(Truncated(h), payload)
  {
    FirstTwoBytes(h);
    var bs := Serialize(h, payload);
    assert bs[2..10] == IdBytes(h.id) == IdBytes(h.id)[..8];
    BigEndianOfIdBytes(h.id, 8);
    assert bs[10..] == payload;
  }

  lemma SurvivesIff(h: Header)
    ensures Truncated(h) == h <==> Nibbles(h.version) && 0 <= h.typ < 128 && (h.shorthand ==> h.id == 0)
  {
  }

  /**
    Parsing fails exactly on inputs too short for the header their second byte announces. The missing byte is
    named counting from 1 before the ID, and as the last byte read inside it.
   */
  lemma ParseFailsIff(bs: seq<uint8>)
    ensures ParseBytes(bs).ShortRead? <==> |bs| < 2 || (bs[1] < 128 && |bs| < 10)
    ensures ParseBytes(bs).ShortRead? ==> ParseBytes(bs).named == if |bs| < 2 then |bs| + 1 else |bs|
  {
  }

  /** Re-serializing a parsed header gives back exactly the bytes that were consumed. */
  lemma ReserializeIsPrefix(bs: seq<uint8>)
    requires ParseBytes(bs).Parsed?
    ensures Serialize(ParseBytes(bs).header, ParseBytes(bs).rest) == bs
  {
    var h := ParseBytes(bs).header;
    ByteRoundTrips(h.version, bs[0]);
    assert TypeByte(h) == bs[1];
    if h.shorthand {
      assert bs == [bs[0], bs[1]] + bs[2..];
    } else {
      IdBytesOfBigEndian(bs[2..10]);
      assert bs == [bs[0], bs[1]] + bs[2..10] + bs[10..];
    }
  }

  // ---- validation -----------------------------------------------------------------------------

  datatype HeaderIssue = InvalidMajor | InvalidMinor | InvalidType | ShorthandWithId

  /** The name lookup gives "UNKNOWN" for type 0 alone: a number without a name prints as itself. */
  function Validate(h: Header): seq<HeaderIssue> {
    var issues := Noting([], h.version.major > 15, InvalidMajor);
    var issues1 := Noting(issues, h.version.minor > 15, InvalidMinor);
    var issues2 := Noting(issues1, h.typ == 0, InvalidType);
    Noting(issues2, h.shorthand && h.id != 0, ShorthandWithId)
  }

  function Noting(issues: seq<HeaderIssue>, found: bool, issue: HeaderIssue): seq<HeaderIssue> {
    if found then issues + [issue] else issues
  }

  /** What an issue says about a header. */
  predicate Has(h: Header, issue: HeaderIssue) {
    match issue
    case InvalidMajor => h.version.major >= 16
    case InvalidMinor => h.version.minor >= 16
    case InvalidType => h.typ == 0
    case ShorthandWithId => h.shorthand && h.id != 0
  }

  /** Validation names every issue a header has once, and no other. */
  lemma ValidateNamesIssues(h: Header, issue: HeaderIssue)
    ensures multiset(Validate(h))[issue] == if Has(h, issue) then 1 else 0
  {
    var issues := Noting([], h.version.major > 15, InvalidMajor);
    var issues1 := Noting(issues, h.version.minor > 15, InvalidMinor);
    var issues2 := Noting(issues1, h.typ == 0, InvalidType);
    NotingCounts([], h.version.major > 15, InvalidMajor, issue);
    NotingCounts(issues, h.version.minor > 15, InvalidMinor, issue);
    NotingCounts(issues1, h.typ == 0, InvalidType, issue);
    NotingCounts(issues2, h.shorthand && h.id != 0, ShorthandWithId, issue);
  }

  lemma NotingCounts(issues: seq<HeaderIssue>, found: bool, issue: HeaderIssue, counted: HeaderIssue)
    ensures multiset(Noting(issues, found, issue))[counted] ==
            multiset(issues)[counted] + if found && issue == counted then 1 else 0
  {
    assert multiset(issues + [issue]) == multiset(issues) + multiset{issue};
  }

  /** Of the headers with a seven-bit type it passes exactly those that survive the wire and have a type. */
  lemma ValidatedSurvives(h: Header)
    requires 0 <= h.typ < 128
    ensures Validate(h) == [] <==> Truncated(h) == h && h.typ != 0
  {
    SurvivesIff(h);
  }

  /** A validated header survives the wire exactly when its type fits in seven bits. */
  lemma ValidatedRoundTrip(h: Header, payload: seq<uint8>)
    requires Validate(h) == []
    ensures ParseBytes(Serialize(h, payload)) == Parsed(h, payload) <==> 0 <= h.typ < 128
  {
    HeaderRoundTrip(h, payload);
  }

  /** Validation promises a seven-bit type but lets type 200 through, which arrives as 72. */
  lemma ValidationMissesWideTypes()
    ensures var h := Header(Version(1, 0), true, 200, 0);
            Validate(h) == [] && ParseBytes(Serialize(h, [])) == Parsed(h.(typ := 72), [])
  {
    HeaderRoundTrip(Header(Version(1, 0), true, 200, 0), []);
  }

  // ---- framing --------------------------------------------------------------------------------

  /** Receiving cuts a datagram at the buffer size before splitting it. */
  function Receive(datagram: seq<uint8>): Parse {
    ParseBytes(if |datagram| <= MAX_PACKET_SIZE then datagram else datagram[..MAX_PACKET_SIZE])
  }

  /** Header and payload arrive as sent exactly when the packet fits the receive buffer. */
  lemma FramingRoundTrip(h: Header, payload: seq<uint8>)
    ensures Receive(Serialize(h, payload)) == Parsed(Truncated(h), payload) <==>
            |Serialize(h, payload)| <= MAX_PACKET_SIZE
  {
    HeaderRoundTrip(h, payload);
    var datagram := Serialize(h, payload);
    if |datagram| > MAX_PACKET_SIZE {
      var n := |SerializeHeader(h)|;
      var cut := payload[..MAX_PACKET_SIZE - n];
      assert datagram[..MAX_PACKET_SIZE] == Serialize(h, cut);
      HeaderRoundTrip(h, cut);
      assert |cut| < |payload|;
    }
  }
}
