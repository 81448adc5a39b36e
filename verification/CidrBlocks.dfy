// The /24 blocks the allocator hands out, as text and as address ranges
// (internal/provisioner/cidr.go).

module CidrBlocks {
  import opened Numerals

  /** Index 0 is the gateway range, which leaves 254 blocks in a /16. */
  const MAX_TENANTS: nat := 254

  datatype Kind = POD | SERVICE

  /** `Pod(i)` is 10.100.i.0/24 and `Svc(i)` is 10.200.i.0/24. */
  datatype Block = Pod(i: nat) | Svc(i: nat)

  /** A row of cf.cidr_allocations: the holder and the type column. */
  datatype Row = Row(tenant: nat, kind: Kind)

  type Table = map<Block, Row>

  predicate InRange(i: nat) {
    1 <= i <= MAX_TENANTS
  }

  /** The primary key of the row: the block in CIDR notation. */
  function Text(b: Block): string {
    match b
    case Pod(i) => "10.100." + Decimal(i) + ".0/24"
    case Svc(i) => "10.200." + Decimal(i) + ".0/24"
  }

  /** Two blocks share a primary key only if they are the same block. */
  lemma TextInjective(a: Block, b: Block)
    ensures Text(a) == Text(b) <==> a == b
  {
    if Text(a) == Text(b) {
      var da, db := Decimal(a.i), Decimal(b.i);
      assert Text(a)[3] == Text(b)[3];
      assert a.Pod? <==> b.Pod?;
      assert |Text(a)| == |da| + 12 && |Text(b)| == |db| + 12;
      assert Text(a)[7..7 + |da|] == da;
      assert Text(b)[7..7 + |db|] == db;
      DecimalInjective(a.i, b.i);
    }
  }

  /** The first 32-bit address of a block: its four octets, most significant first. */
  function First(b: Block): nat {
    match b
    case Pod(i) => ((10 * 256 + 100) * 256 + i) * 256
    case Svc(i) => ((10 * 256 + 200) * 256 + i) * 256
  }

  /** The addresses a /24 denotes: those that agree with it in the first 24 bits
      (section 3.1 of RFC 4632). */
  ghost predicate Contains(b: Block, address: nat) {
    address / 256 == First(b) / 256
  }

  /** Distinct blocks that can be handed out denote disjoint ranges, each of 256 addresses and
      inside its own /16 supernet, so holding different rows means holding different addresses. */
  lemma RangesDisjoint(a: Block, b: Block, address: nat)
    requires InRange(a.i) && InRange(b.i)
    ensures Contains(a, address) ==> First(a) <= address < First(a) + 256
    ensures Contains(a, address) ==> address / 65536 == if a.Pod? then 10 * 256 + 100 else 10 * 256 + 200
    ensures Contains(a, address) && Contains(b, address) ==> a == b
  {
    assert First(a) / 256 == First(a) / 256;
    if Contains(a, address) {
      assert address / 65536 == (address / 256) / 256;
    }
  }
}
