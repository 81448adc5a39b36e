// What the text of a block denotes: a reader of CIDR notation (section 3.1 of RFC 4632), and that it reads
// the keys the allocator prints (internal/provisioner/cidr.go) as the blocks they stand for.

module CidrText {
  import opened CidrBlocks
  import opened Joining
  import opened Numerals
  import opened Options

  // ----- The reader.

  /** A network: its first address and the length of its prefix. */
  datatype Network = Network(address: int, length: int)

  predicate IsOctet(s: string) {
    IsNumeral(s) && Value(s) < 256
  }

  /** Four octets with dots between them, a slash, and the length. */
  function Read(s: string): Option<Network> {
    var parts := Split(s, '/');
    if |parts| != 2 || !IsNumeral(parts[1]) || Value(parts[1]) > 32 then None
    else
      var quad := Split(parts[0], '.');
      if |quad| != 4 || exists k :: 0 <= k < 4 && !IsOctet(quad[k]) then None
      else
        Some(Network(((Value(quad[0]) * 256 + Value(quad[1])) * 256 + Value(quad[2])) * 256 + Value(quad[3]),
                     Value(parts[1])))
  }

  // ----- It reads the keys.

  lemma NumeralHasNo(s: string)
    requires IsNumeral(s)
    ensures '.' !in s && '/' !in s
  {
  }

  /** Four octets and a length, joined, are read one by one. */
  lemma ReadsQuad(quad: seq<string>, length: string)
    requires |quad| == 4 && (forall k :: 0 <= k < 4 ==> IsNumeral(quad[k]))
    requires IsNumeral(length) && Value(length) <= 32
    ensures Read(Join([Join(quad, '.'), length], '/')) ==
            if exists k :: 0 <= k < 4 && !IsOctet(quad[k]) then None
            else Some(Network(((Value(quad[0]) * 256 + Value(quad[1])) * 256 + Value(quad[2])) * 256 + Value(quad[3]),
                              Value(length)))
  {
    forall k | 0 <= k < 4
      ensures '.' !in quad[k] && '/' !in quad[k]
    {
      NumeralHasNo(quad[k]);
    }
    NumeralHasNo(length);
    JoinThenSplit(quad, '.');
    JoinHasNo(quad, '.', '/');
    JoinThenSplit([Join(quad, '.'), length], '/');
  }

  lemma {:induction false} JoinHasNo(pieces: seq<string>, sep: char, c: char)
    requires pieces != [] && Free(pieces, c) && c != sep
    ensures c !in Join(pieces, sep)
  {
    if |pieces| > 1 {
      JoinHasNo(pieces[1..], sep, c);
    }
  }

  /** The numerals in the two formats. */
  lemma Constants()
    ensures IsOctet("10") && Value("10") == 10
    ensures IsOctet("100") && Value("100") == 100
    ensures IsOctet("200") && Value("200") == 200
    ensures IsOctet("0") && Value("0") == 0
    ensures IsNumeral("24") && Value("24") == 24
  {
    assert "10"[..1] == "1" && "100"[..2] == "10" && "200"[..2] == "20" && "20"[..1] == "2" && "24"[..1] == "2";
    assert "1"[..0] == "" && "2"[..0] == "" && "0"[..0] == "";
  }

  function Quad(b: Block): seq<string> {
    ["10", if b.Pod? then "100" else "200", Decimal(b.i), "0"]
  }

  lemma TextIsJoin(b: Block)
    ensures Text(b) == Join([Join(Quad(b), '.'), "24"], '/')
  {
    var d := Decimal(b.i);
    var second := if b.Pod? then "100" else "200";
    assert Quad(b)[1..] == [second, d, "0"] && [second, d, "0"][1..] == [d, "0"] && [d, "0"][1..] == ["0"];
    assert Join([d, "0"], '.') == d + ['.'] + "0";
    assert Join([second, d, "0"], '.') == second + ['.'] + Join([d, "0"], '.');
    assert Join(Quad(b), '.') == "10" + ['.'] + (second + ['.'] + (d + ['.'] + "0"));
    Grouped("10", second, d, "0");
    var quad := Join(Quad(b), '.');
    assert [quad, "24"][1..] == ["24"];
    assert Join([quad, "24"], '/') == quad + ['/'] + "24";
    var front := "10" + ['.'] + second + ['.'];
    assert front == if b.Pod? then "10.100." else "10.200.";
    assert (front + d) + ['.'] + "0" + ['/'] + "24" == (front + d) + ".0/24";
  }

  lemma Grouped(a: string, b: string, c: string, d: string)
    ensures a + ['.'] + (b + ['.'] + (c + ['.'] + d)) == ((a + ['.'] + b + ['.']) + c) + ['.'] + d
  {
  }

  /** The text of a block can be read exactly if its index is an octet, so for every block that can be
      handed out. It then denotes the 256 addresses from the block's first one on: what a call stores and
      returns is the network whose addresses it holds. */
  lemma TextDenotes(b: Block)
    ensures Read(Text(b)) == if b.i < 256 then Some(Network(First(b), 24)) else None
  {
    var quad := Quad(b);
    QuadReads(b);
    Constants();
    TextIsJoin(b);
    ReadsQuad(quad, "24");
    if b.i >= 256 {
      assert !IsOctet(quad[2]);
    } else {
      assert forall k :: 0 <= k < 4 ==> IsOctet(quad[k]);
    }
  }

  lemma QuadReads(b: Block)
    ensures forall k :: 0 <= k < 4 ==> IsNumeral(Quad(b)[k])
    ensures Value(Quad(b)[0]) == 10 && Value(Quad(b)[1]) == if b.Pod? then 100 else 200
    ensures Value(Quad(b)[2]) == b.i && Value(Quad(b)[3]) == 0
  {
    Constants();
    DecimalReads(b.i);
  }

  /** The pair that the workflow gives to every tenant is the first that can be handed out. */
  lemma FirstPair()
    ensures Text(Pod(1)) == "10.100.1.0/24" && Text(Svc(1)) == "10.200.1.0/24"
  {
    assert Decimal(1) == [Digit(1)] == "1";
  }

  /** What the indices in range leave out of a supernet is its first and its last block: every address of
      10.100.0.0/16 and 10.200.0.0/16 is in the gateway block, in exactly one block that can be handed out,
      or in the last one. */
  lemma SupernetIsCovered(address: int)
    requires address >= 0
    ensures address / 65536 == 10 * 256 + 100 <==>
            exists i: nat :: (i == 0 || InRange(i) || i == 255) && Contains(Pod(i), address)
    ensures address / 65536 == 10 * 256 + 200 <==>
            exists i: nat :: (i == 0 || InRange(i) || i == 255) && Contains(Svc(i), address)
  {
    var i: nat := address / 256 % 256;
    assert address / 256 == address / 65536 * 256 + i;
    if address / 65536 == 10 * 256 + 100 {
      assert Contains(Pod(i), address);
    } else if address / 65536 == 10 * 256 + 200 {
      assert Contains(Svc(i), address);
    }
  }
}
