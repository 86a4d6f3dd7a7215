/**
 * Seed layouts of the program-derived addresses (PDAs) of the ticketing
 * program, and the 8-byte little-endian encoding of u64 ids they use. The
 * address derivation itself (`findProgramAddressSync`, a hash search) is an
 * opaque function passed in by the caller.
 */
module ProgramSeeds {

  newtype byte = x: int | 0 <= x < 256

  /** A public key, by its 32 bytes (`toBuffer()`). */
  datatype Address = Address(bytes: seq<byte>)

  type Seeds = seq<seq<byte>>

  const TWO_TO_64: int := 0x1_0000_0000_0000_0000

  function Pow256(k: nat): (r: nat)
    ensures r > 0
  {
    if k == 0 then 1 else 256 * Pow256(k - 1)
  }

  /** The low `len` bytes of `n`, least significant first. */
  function LittleEndian(n: nat, len: nat): (r: seq<byte>)
    ensures |r| == len
  {
    if len == 0 then [] else [(n % 256) as byte] + LittleEndian(n / 256, len - 1)
  }

  /** The value of a little-endian byte string. */
  function DecodeLittleEndian(bs: seq<byte>): nat {
    if bs == [] then 0 else bs[0] as nat + 256 * DecodeLittleEndian(bs[1..])
  }

  /**
   * `new DataView(buf).setBigUint64(0, BigInt(id), true)` on a fresh 8-byte
   * buffer: the id reduced modulo 2^64, as `setBigUint64` does, in 8 bytes
   * least significant first.
   */
  function EncodeU64LE(id: int): (r: seq<byte>)
    ensures |r| == 8
  {
    LittleEndian(id % TWO_TO_64, 8)
  }

  lemma Pow256Eight()
    ensures Pow256(8) == TWO_TO_64
  {
  }

  lemma UniqueRemainder(n: int, d: int, q: int, r: int)
    requires d > 0 && 0 <= r < d && n == d * q + r
    ensures n % d == r && n / d == q
  {
    var q0, r0 := n / d, n % d;
    assert d * (q - q0) == r0 - r;
    if q > q0 {
      MultipleAtLeast(d, q - q0);
    } else if q < q0 {
      MultipleAtLeast(d, q0 - q);
    }
  }

  lemma MultipleAtLeast(d: int, k: int)
    requires d > 0 && k >= 1
    ensures d * k >= d
  {
  }

  lemma RemainderSplit(n: nat, m: nat)
    requires m > 0
    ensures n % (256 * m) == n % 256 + 256 * ((n / 256) % m)
  {
    var q, r := n / 256, n % 256;
    var t, u := q / m, q % m;
    assert n == 256 * q + r;
    assert q == m * t + u;
    assert n == (256 * m) * t + (256 * u + r);
    UniqueRemainder(n, 256 * m, t, 256 * u + r);
  }

  /** Decoding the low `len` bytes of `n` gives `n` modulo 256^len. */
  lemma {:induction false} LittleEndianRoundTrip(n: nat, len: nat)
    ensures DecodeLittleEndian(LittleEndian(n, len)) == n % Pow256(len)
  {
    if len > 0 {
      LittleEndianRoundTrip(n / 256, len - 1);
      RemainderSplit(n, Pow256(len - 1));
      assert LittleEndian(n, len)[1..] == LittleEndian(n / 256, len - 1);
    }
  }

  /** The 8 bytes decode back to the id modulo 2^64, hence to the id itself when it fits in a u64. */
  lemma U64RoundTrip(id: int)
    ensures DecodeLittleEndian(EncodeU64LE(id)) == id % TWO_TO_64
    ensures 0 <= id < TWO_TO_64 ==> DecodeLittleEndian(EncodeU64LE(id)) == id
  {
    var m := id % TWO_TO_64;
    LittleEndianRoundTrip(m, 8);
    Pow256Eight();
    assert 0 <= m < TWO_TO_64;
    assert m % TWO_TO_64 == m;
  }

  /** Distinct ids in the u64 range encode differently, while ids 2^64 apart collide. */
  lemma U64Injective(a: int, b: int)
    ensures 0 <= a < TWO_TO_64 && 0 <= b < TWO_TO_64 && a != b ==> EncodeU64LE(a) != EncodeU64LE(b)
    ensures EncodeU64LE(a + TWO_TO_64) == EncodeU64LE(a)
  {
    U64RoundTrip(a);
    U64RoundTrip(b);
    assert (a + TWO_TO_64) % TWO_TO_64 == a % TWO_TO_64;
  }

  /** The bytes of an ASCII tag (`Buffer.from("escrow")`). */
  function Ascii(s: string): (r: seq<byte>)
    requires forall i :: 0 <= i < |s| ==> s[i] as int < 128
    ensures |r| == |s| && forall i :: 0 <= i < |s| ==> r[i] as int == s[i] as int
  {
    seq(|s|, i requires 0 <= i < |s| => s[i] as int as byte)
  }

  /** `Buffer.from([i])`: the element is converted to a byte modulo 256. */
  function IndexByte(i: int): (r: seq<byte>)
    ensures |r| == 1 && r[0] as int == i % 256
  {
    [(i % 256) as byte]
  }

  function EscrowSeeds(organizer: Address): Seeds {
    [Ascii("escrow"), organizer.bytes]
  }

  function EventSeeds(organizer: Address, eventId: int): Seeds {
    [Ascii("event"), organizer.bytes, EncodeU64LE(eventId)]
  }

  function TierSeeds(eventPda: Address, tierIndex: int): Seeds {
    [Ascii("tier"), eventPda.bytes, IndexByte(tierIndex)]
  }

  function TicketSeeds(eventPda: Address, tokenId: int): Seeds {
    [Ascii("ticket"), eventPda.bytes, EncodeU64LE(tokenId)]
  }

  function ValidatorSeeds(eventPda: Address, validator: Address): Seeds {
    [Ascii("validator"), eventPda.bytes, validator.bytes]
  }

  function GetEscrowPda(derive: Seeds -> Address, organizer: Address): Address { derive(EscrowSeeds(organizer)) }
  function GetEventPda(derive: Seeds -> Address, organizer: Address, eventId: int): Address { derive(EventSeeds(organizer, eventId)) }
  function GetTierPda(derive: Seeds -> Address, eventPda: Address, tierIndex: int): Address { derive(TierSeeds(eventPda, tierIndex)) }
  function GetTicketPda(derive: Seeds -> Address, eventPda: Address, tokenId: int): Address { derive(TicketSeeds(eventPda, tokenId)) }
  function GetValidatorPda(derive: Seeds -> Address, eventPda: Address, validator: Address): Address { derive(ValidatorSeeds(eventPda, validator)) }

  /**
   * The five seed layouts, part by part: the tag's bytes in ASCII, then the
   * 32-byte keys, then the encoded id or index.
   */
  lemma SeedLayouts(o: Address, e: Address, v: Address, id: int, idx: int)
    ensures EscrowSeeds(o) == [[101, 115, 99, 114, 111, 119], o.bytes]
    ensures EventSeeds(o, id) == [[101, 118, 101, 110, 116], o.bytes, EncodeU64LE(id)]
    ensures TierSeeds(e, idx) == [[116, 105, 101, 114], e.bytes, [(idx % 256) as byte]]
    ensures TicketSeeds(e, id) == [[116, 105, 99, 107, 101, 116], e.bytes, EncodeU64LE(id)]
    ensures ValidatorSeeds(e, v) == [[118, 97, 108, 105, 100, 97, 116, 111, 114], e.bytes, v.bytes]
  {
    AsciiIs("escrow", [101, 115, 99, 114, 111, 119]);
    AsciiIs("event", [101, 118, 101, 110, 116]);
    AsciiIs("tier", [116, 105, 101, 114]);
    AsciiIs("ticket", [116, 105, 99, 107, 101, 116]);
    AsciiIs("validator", [118, 97, 108, 105, 100, 97, 116, 111, 114]);
  }

  lemma AsciiIs(s: string, bs: seq<byte>)
    requires |s| == |bs| && forall i :: 0 <= i < |s| ==> s[i] as int == bs[i] as int && s[i] as int < 128
    ensures Ascii(s) == bs
  {
  }

  /**
   * The event and ticket seeds end in exactly 8 id bytes, and two of them are
   * equal only for the same organizer (event PDA) and, in the u64 range, the
   * same id.
   */
  lemma IdSeedsAreInjective(o1: Address, o2: Address, a: int, b: int)
    requires 0 <= a < TWO_TO_64 && 0 <= b < TWO_TO_64
    ensures |EventSeeds(o1, a)[2]| == 8 && |TicketSeeds(o1, a)[2]| == 8
    ensures EventSeeds(o1, a) == EventSeeds(o2, b) ==> o1 == o2 && a == b
    ensures TicketSeeds(o1, a) == TicketSeeds(o2, b) ==> o1 == o2 && a == b
  {
    if a != b {
      U64Injective(a, b);
      assert EventSeeds(o1, a)[2] != EventSeeds(o2, b)[2];
      assert TicketSeeds(o1, a)[2] != TicketSeeds(o2, b)[2];
    }
  }

  /** The tier index travels as one byte: indices 0..255 give distinct seeds, and index i + 256 collides with i. */
  lemma TierIndexIsOneByte(e: Address, i: int, j: int)
    ensures 0 <= i < 256 && 0 <= j < 256 && i != j ==> TierSeeds(e, i) != TierSeeds(e, j)
    ensures TierSeeds(e, i + 256) == TierSeeds(e, i)
  {
    if 0 <= i < 256 && 0 <= j < 256 && i != j {
      assert TierSeeds(e, i)[2][0] != TierSeeds(e, j)[2][0];
    }
    assert (i + 256) % 256 == i % 256;
  }

  /** Each kind of account starts its seeds with its own tag, so seeds of two kinds never coincide. */
  lemma SeedKindsAreSeparated(a: Address, b: Address, n: int, m: int)
    ensures EscrowSeeds(a)[0] != EventSeeds(a, n)[0]
    ensures EventSeeds(a, n)[0] != TierSeeds(b, m)[0] && EventSeeds(a, n)[0] != TicketSeeds(b, m)[0]
    ensures TierSeeds(a, n)[0] != TicketSeeds(b, m)[0] && TicketSeeds(a, n)[0] != ValidatorSeeds(b, a)[0]
    ensures ValidatorSeeds(a, b)[0] != EscrowSeeds(b)[0] && ValidatorSeeds(a, b)[0] != EventSeeds(b, m)[0]
    ensures EscrowSeeds(a)[0] != TierSeeds(b, m)[0] && EscrowSeeds(a)[0] != TicketSeeds(b, m)[0]
    ensures TierSeeds(a, n)[0] != ValidatorSeeds(b, a)[0]
  {
    assert Ascii("escrow")[0] as int == 'e' as int && Ascii("ticket")[0] as int == 't' as int;
  }
}
