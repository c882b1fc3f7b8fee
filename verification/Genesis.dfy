/** The Clique genesis block written for geth, quorum and besu, read back under the extra-data layout of
    the "Specification" section of EIP-225: 32 bytes of vanity, 20 bytes a signer, 65 bytes of seal. */
module Genesis {
  import opened Wrappers

  datatype Client = Geth | Quorum | Besu

  datatype Block = Block(
    chainId: int,
    period: int,
    epoch: int,
    timestamp: string,
    extraData: string,
    gasLimit: string,
    alloc: map<string, string>)

  const BALANCE := "0x200000000000000000000000000000000000000000000000000000000000000"
  const WIDTH := 236
  const ADDRESS_CHARS := 40
  const VANITY_CHARS := 64
  const SEAL_CHARS := 130

  function Zeros(k: nat): (z: string)
    ensures |z| == k
    ensures forall i :: 0 <= i < k ==> z[i] == '0'
  {
    seq(k, _ => '0')
  }

  predicate NoBlank(s: string) {
    forall i :: 0 <= i < |s| ==> s[i] != ' '
  }

  /** The literal every extra data starts with: 32 zero bytes of vanity. */
  function Head(): (h: string)
    ensures |h| == 2 + VANITY_CHARS && NoBlank(h)
  {
    "0x" + Zeros(VANITY_CHARS)
  }

  predicate IsAddress(a: string) {
    |a| == ADDRESS_CHARS && NoBlank(a)
  }

  predicate AreAddresses(addresses: seq<string>) {
    forall i :: 0 <= i < |addresses| ==> IsAddress(addresses[i])
  }

  function Concat(parts: seq<string>): string {
    if parts == [] then "" else Concat(parts[..|parts| - 1]) + parts[|parts| - 1]
  }

  /** fmt.Sprintf("%-236s", s): blanks on the right up to the width, nothing cut off. */
  function PadRight(s: string, width: nat): string {
    if |s| < width then s + seq(width - |s|, _ => ' ') else s
  }

  function BlanksToZeros(s: string): (r: string)
    ensures |r| == |s|
  {
    seq(|s|, i requires 0 <= i < |s| => if s[i] == ' ' then '0' else s[i])
  }

  function DefaultPeriod(client: Client): int {
    if client == Geth then 0 else 5
  }

  /** Timestamp and gas limit, the two literals in which the three clients differ. */
  function ClientConstants(client: Client): (string, string) {
    match client
    case Geth => ("0x60edb1c7", "0xffffff")
    case Quorum => ("0x0", "0xE0000000")
    case Besu => ("0x5c51a607", "0xffffffff")
  }

  method CreateGenesis(client: Client, addresses: seq<string>, blockPeriod: int, chainID: int) returns (genesis: Block)
    ensures genesis.chainId == chainID && genesis.epoch == 30000
    ensures genesis.period == if blockPeriod != -1 then blockPeriod else if client == Geth then 0 else 5
    ensures client == Geth ==> genesis.timestamp == "0x60edb1c7" && genesis.gasLimit == "0xffffff"
    ensures client == Quorum ==> genesis.timestamp == "0x0" && genesis.gasLimit == "0xE0000000"
    ensures client == Besu ==> genesis.timestamp == "0x5c51a607" && genesis.gasLimit == "0xffffffff"
    ensures genesis.alloc.Keys == set i | 0 <= i < |addresses| :: addresses[i]
    ensures forall a :: a in genesis.alloc ==> genesis.alloc[a] == "0x200000000000000000000000000000000000000000000000000000000000000"
    ensures genesis.extraData == BlanksToZeros(PadRight(Head() + Concat(addresses), WIDTH))
  {
    var period := if blockPeriod == -1 then DefaultPeriod(client) else blockPeriod;
    var extraData := Head();
    var alloc := map[];
    for i := 0 to |addresses|
      invariant extraData == Head() + Concat(addresses[..i])
      invariant alloc.Keys == set k | 0 <= k < i :: addresses[k]
      invariant forall a :: a in alloc ==> alloc[a] == BALANCE
    {
      alloc := alloc[addresses[i] := BALANCE];
      extraData := extraData + addresses[i];
      assert addresses[..i + 1][..i] == addresses[..i];
    }
    assert addresses[..|addresses|] == addresses;
    extraData := BlanksToZeros(PadRight(extraData, WIDTH));
    var (timestamp, gasLimit) := ClientConstants(client);
    genesis := Block(chainID, period, 30000, timestamp, extraData, gasLimit, alloc);
  }

  // ---------------------------------------------------------------- EIP-225

  datatype Checkpoint = Checkpoint(vanity: string, signers: seq<string>, seal: string)

  predicate ValidCheckpoint(c: Checkpoint) {
    |c.vanity| == VANITY_CHARS && |c.seal| == SEAL_CHARS && AreAddresses(c.signers)
  }

  function Encode(c: Checkpoint): string {
    "0x" + c.vanity + Concat(c.signers) + c.seal
  }

  function Chunks(s: string, k: nat): (parts: seq<string>)
    requires ADDRESS_CHARS * k <= |s|
    ensures |parts| == k
    ensures forall i :: 0 <= i < k ==> parts[i] == s[ADDRESS_CHARS * i..ADDRESS_CHARS * i + ADDRESS_CHARS]
  {
    seq(k, i requires 0 <= i < k => s[ADDRESS_CHARS * i..ADDRESS_CHARS * i + ADDRESS_CHARS])
  }

  /** What a Clique client reads: the number of signers is the division rounded down. */
  function Decode(extraData: string): Option<Checkpoint> {
    if |extraData| < 2 + VANITY_CHARS + SEAL_CHARS || extraData[..2] != "0x" then None
    else
      var hex := extraData[2..];
      var middle := hex[VANITY_CHARS..|hex| - SEAL_CHARS];
      Some(Checkpoint(hex[..VANITY_CHARS], Chunks(middle, |middle| / ADDRESS_CHARS), hex[|hex| - SEAL_CHARS..]))
  }

  /** The signers fill the middle part exactly. */
  predicate ExactLayout(extraData: string) {
    |extraData| >= 2 + VANITY_CHARS + SEAL_CHARS
    && (|extraData| - 2 - VANITY_CHARS - SEAL_CHARS) % ADDRESS_CHARS == 0
  }

  lemma {:induction false} ConcatLength(parts: seq<string>)
    requires AreAddresses(parts)
    ensures |Concat(parts)| == ADDRESS_CHARS * |parts|
    ensures NoBlank(Concat(parts))
  {
    if parts != [] {
      ConcatLength(parts[..|parts| - 1]);
    }
  }

  lemma {:induction false} ChunkOfConcat(parts: seq<string>, i: nat)
    requires AreAddresses(parts) && i < |parts|
    ensures |Concat(parts)| == ADDRESS_CHARS * |parts|
    ensures Concat(parts)[ADDRESS_CHARS * i..ADDRESS_CHARS * i + ADDRESS_CHARS] == parts[i]
  {
    var front := parts[..|parts| - 1];
    ConcatLength(parts);
    ConcatLength(front);
    if i < |front| {
      ChunkOfConcat(front, i);
      assert Concat(parts)[ADDRESS_CHARS * i..ADDRESS_CHARS * i + ADDRESS_CHARS]
          == Concat(front)[ADDRESS_CHARS * i..ADDRESS_CHARS * i + ADDRESS_CHARS];
    }
  }

  /** Chunks of a text that starts with concatenated addresses are those addresses. */
  lemma ChunksOfConcat(parts: seq<string>, rest: string, k: nat)
    requires AreAddresses(parts) && k <= |parts|
    ensures ADDRESS_CHARS * k <= |Concat(parts) + rest|
    ensures Chunks(Concat(parts) + rest, k) == parts[..k]
  {
    ConcatLength(parts);
    forall i | 0 <= i < k
      ensures Chunks(Concat(parts) + rest, k)[i] == parts[i]
    {
      ChunkOfConcat(parts, i);
      assert (Concat(parts) + rest)[ADDRESS_CHARS * i..ADDRESS_CHARS * i + ADDRESS_CHARS]
          == Concat(parts)[ADDRESS_CHARS * i..ADDRESS_CHARS * i + ADDRESS_CHARS];
    }
  }

  /** The layout loses nothing: any number of signers survives encoding and decoding. */
  lemma DecodeEncode(c: Checkpoint)
    requires ValidCheckpoint(c)
    ensures Decode(Encode(c)) == Some(c) && ExactLayout(Encode(c))
  {
    ConcatLength(c.signers);
    var hex := c.vanity + Concat(c.signers) + c.seal;
    assert Encode(c)[..2] == "0x" && Encode(c)[2..] == hex;
    assert hex[..VANITY_CHARS] == c.vanity && hex[|hex| - SEAL_CHARS..] == c.seal;
    assert hex[VANITY_CHARS..|hex| - SEAL_CHARS] == Concat(c.signers) + "";
    ChunksOfConcat(c.signers, "", |c.signers|);
    assert c.signers[..|c.signers|] == c.signers;
  }

  lemma ChunksOfPrefix(s: string, m: nat, k: nat)
    requires ADDRESS_CHARS * k <= m <= |s|
    ensures Chunks(s[..m], k) == Chunks(s, k)
  {
    forall i | 0 <= i < k
      ensures Chunks(s[..m], k)[i] == Chunks(s, k)[i]
    {
      assert ADDRESS_CHARS * i + ADDRESS_CHARS <= m;
    }
  }

  // ---------------------------------------------------------------- what the written genesis says

  function ExtraData(addresses: seq<string>): string {
    BlanksToZeros(PadRight(Head() + Concat(addresses), WIDTH))
  }

  function Max(a: int, b: int): int {
    if a < b then b else a
  }

  /** The padding turns into zeros behind the addresses, and nothing else changes. */
  lemma ExtraDataShape(addresses: seq<string>)
    requires AreAddresses(addresses)
    ensures ExtraData(addresses)
         == Head() + (Concat(addresses) + Zeros(Max(0, 170 - ADDRESS_CHARS * |addresses|)))
  {
    var head, c, n := Head(), Concat(addresses), ADDRESS_CHARS * |addresses|;
    assert NoBlank(c) && |c| == n by { ConcatLength(addresses); }
    PaddedTo(head, c, n);
  }

  lemma PaddedTo(head: string, c: string, n: nat)
    requires NoBlank(head) && NoBlank(c) && |head| == 2 + VANITY_CHARS && |c| == n
    ensures BlanksToZeros(PadRight(head + c, WIDTH)) == head + (c + Zeros(Max(0, 170 - n)))
  {
    PaddedShape(head, c, WIDTH);
  }

  lemma PaddedShape(head: string, c: string, width: nat)
    requires NoBlank(head) && NoBlank(c)
    ensures BlanksToZeros(PadRight(head + c, width)) == head + (c + Zeros(Max(0, width - |head| - |c|)))
  {
    NoBlanks(head, c);
    PaddingBecomesZeros(head + c, width);
    Reassociate(head, c, Zeros(Max(0, width - |head| - |c|)));
  }

  lemma NoBlanks(a: string, b: string)
    requires NoBlank(a) && NoBlank(b)
    ensures NoBlank(a + b)
  {
    forall i | 0 <= i < |a + b|
      ensures (a + b)[i] != ' '
    {
      assert if i < |a| then (a + b)[i] == a[i] else (a + b)[i] == b[i - |a|];
    }
  }

  lemma Reassociate(a: string, b: string, c: string)
    ensures a + b + c == a + (b + c)
  {
  }

  lemma PaddingBecomesZeros(s: string, width: nat)
    requires NoBlank(s)
    ensures BlanksToZeros(PadRight(s, width)) == s + Zeros(Max(0, width - |s|))
  {
  }

  lemma ExtraDataLength(addresses: seq<string>)
    requires AreAddresses(addresses)
    ensures |ExtraData(addresses)| == Max(WIDTH, 66 + ADDRESS_CHARS * |addresses|)
    ensures ExactLayout(ExtraData(addresses)) <==> |addresses| <= 4
  {
    ConcatLength(addresses);
    ExtraDataShape(addresses);
  }

  function SignersRead(n: nat): nat {
    if n <= 5 then 1 else n - 4
  }

  /** A client reads the first signer only, up to five members, and drops the last four above that. */
  lemma DecodedSigners(addresses: seq<string>)
    requires AreAddresses(addresses) && |addresses| >= 1
    ensures var d := Decode(ExtraData(addresses));
            d.Some? && d.value.vanity == Zeros(VANITY_CHARS) && d.value.signers == addresses[..SignersRead(|addresses|)]
  {
    var n := |addresses|;
    var tail := Concat(addresses) + Zeros(Max(0, 170 - ADDRESS_CHARS * n));
    ConcatLength(addresses);
    ExtraDataShape(addresses);
    var hex := Zeros(VANITY_CHARS) + tail;
    assert ExtraData(addresses) == "0x" + hex;
    assert ExtraData(addresses)[..2] == "0x" && ExtraData(addresses)[2..] == hex;
    var middle := hex[VANITY_CHARS..|hex| - SEAL_CHARS];
    assert middle == tail[..|tail| - SEAL_CHARS];
    assert |middle| / ADDRESS_CHARS == SignersRead(n);
    ChunksOfConcat(addresses, Zeros(Max(0, 170 - ADDRESS_CHARS * n)), SignersRead(n));
    ChunksOfPrefix(tail, |middle|, SignersRead(n));
    assert hex[..VANITY_CHARS] == Zeros(VANITY_CHARS);
  }

  /** From two to four members the signers that are not read sit in the seal. */
  lemma LostSignersInSeal(addresses: seq<string>)
    requires AreAddresses(addresses) && 1 <= |addresses| <= 4
    ensures var d := Decode(ExtraData(addresses));
            d.Some? && d.value.seal == Concat(addresses[1..]) + Zeros(SEAL_CHARS - ADDRESS_CHARS * (|addresses| - 1))
  {
    var n := |addresses|;
    ConcatLength(addresses);
    ConcatLength(addresses[1..]);
    ConcatFirst(addresses);
    ExtraDataShape(addresses);
    var tail := Concat(addresses) + Zeros(170 - ADDRESS_CHARS * n);
    assert tail[ADDRESS_CHARS..] == Concat(addresses[1..]) + Zeros(170 - ADDRESS_CHARS * n);
    assert ExtraData(addresses)[..2] == "0x";
    assert ExtraData(addresses)[2..][104..] == tail[ADDRESS_CHARS..];
  }

  lemma {:induction false} ConcatFirst(parts: seq<string>)
    requires parts != []
    ensures Concat(parts) == parts[0] + Concat(parts[1..])
  {
    if |parts| > 1 {
      var front := parts[..|parts| - 1];
      ConcatFirst(front);
      assert parts[1..][..|parts| - 2] == front[1..];
    } else {
      assert parts[..0] == [] && parts[1..] == [];
    }
  }

  /** The genesis says what it is meant to say, all members as signers under an empty seal, exactly for one member. */
  lemma ExactForOneMember(addresses: seq<string>)
    requires AreAddresses(addresses)
    ensures Decode(ExtraData(addresses)) == Some(Checkpoint(Zeros(VANITY_CHARS), addresses, Zeros(SEAL_CHARS)))
       <==> |addresses| == 1
    ensures ExtraData(addresses) == Encode(Checkpoint(Zeros(VANITY_CHARS), addresses, Zeros(SEAL_CHARS)))
       <==> |addresses| == 1
  {
    var intended := Checkpoint(Zeros(VANITY_CHARS), addresses, Zeros(SEAL_CHARS));
    DecodeEncode(intended);
    if |addresses| == 0 {
      ExtraDataLength(addresses);
    } else {
      DecodedSigners(addresses);
      if |addresses| == 1 {
        LostSignersInSeal(addresses);
        assert Concat(addresses[1..]) == "";
        assert addresses[..1] == addresses;
        ExtraDataShape(addresses);
        assert Zeros(130) == Zeros(SEAL_CHARS);
        assert "0x" + Zeros(VANITY_CHARS) + (Concat(addresses) + Zeros(SEAL_CHARS)) == Encode(intended);
      }
    }
  }
}
