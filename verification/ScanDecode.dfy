/** Decoding a native scan request into its channel bitmap. */
module ScanDecode {
  import opened Common
  import Station

  const HEADER := 0x58
  const ENTRY := 12

  datatype ScanRequest = ScanRequest(identifier: nat, kind: nat, ssid: Bytes, bssid: Bytes, channelCount: nat,
                                     channels: seq<bv8>)

  // -------------------------------------------------------------------------
  // The request
  // -------------------------------------------------------------------------

  function Word(p: Bytes, at: nat): nat
    requires at + 4 <= |p|
  {
    p[at] as nat + 0x100 * p[at + 1] as nat + 0x1_0000 * p[at + 2] as nat + 0x100_0000 * p[at + 3] as nat
  }

  predicate Flag(flags: nat, mask: nat)
    requires mask > 0
  {
    flags / mask % 2 == 1
  }

  predicate WellFormed(p: Bytes) {
    && |p| >= HEADER && Word(p, 0x54) <= 400 && Word(p, 0x1c) <= 32 && 1 <= Word(p, 0x40) <= 4
    && |p| >= HEADER + Word(p, 0x54) * ENTRY
  }

  /** Entry `i` asks for channel `c`: a 2.4 or 5 GHz number that agrees with its band flags. */
  predicate Lists(p: Bytes, i: nat, c: nat)
    requires HEADER + (i + 1) * ENTRY <= |p|
  {
    var number, flags := Word(p, HEADER + i * ENTRY + 4), Word(p, HEADER + i * ENTRY + 8);
    && number == c && 1 <= number <= 196 && !Flag(flags, 0x2000)
    && !(Flag(flags, 0x8) && number > 14) && !(Flag(flags, 0x10) && number <= 14)
  }

  predicate ListedBefore(p: Bytes, n: nat, c: nat)
    requires HEADER + n * ENTRY <= |p|
  {
    exists i: nat :: i < n && Lists(p, i, c)
  }

  // -------------------------------------------------------------------------
  // The bitmap
  // -------------------------------------------------------------------------

  function Mask(k: nat): bv8
    requires k < 8
  {
    if k == 0 then 1 else if k == 1 then 2 else if k == 2 then 4 else if k == 3 then 8
    else if k == 4 then 16 else if k == 5 then 32 else if k == 6 then 64 else 128
  }

  predicate Selected(channels: seq<bv8>, c: nat)
    requires |channels| == 32 && c < 256
  {
    channels[c / 8] & Mask(c % 8) != 0
  }

  function WithBit(channels: seq<bv8>, c: nat): (r: seq<bv8>)
    requires |channels| == 32 && c < 256
    ensures |r| == 32
  {
    channels[c / 8 := channels[c / 8] | Mask(c % 8)]
  }

  /** The test that the scan makes on a channel. */
  predicate ChannelSelected(channels: seq<bv8>, restricted: bool, c: nat)
    requires |channels| == 32
  {
    !restricted || (c < 256 && Selected(channels, c))
  }

  lemma MaskTests(b: bv8, k: nat, j: nat)
    requires k < 8 && j < 8
    ensures (b | Mask(k)) & Mask(j) != 0 <==> b & Mask(j) != 0 || j == k
  {
    MasksDisjoint(k, j);
    OrTests(b, Mask(k), Mask(j));
  }

  lemma MasksDisjoint(k: nat, j: nat)
    requires k < 8 && j < 8
    ensures Mask(k) & Mask(j) != 0 <==> j == k
  {
  }

  lemma OrTests(b: bv8, m: bv8, n: bv8)
    ensures (b | m) & n != 0 <==> b & n != 0 || m & n != 0
  {
  }

  /** Setting the bit of one channel selects it and leaves every other as it was. */
  lemma SettingSelects(channels: seq<bv8>, c: nat, d: nat)
    requires |channels| == 32 && c < 256 && d < 256
    ensures Selected(WithBit(channels, c), d) <==> Selected(channels, d) || c == d
  {
    if c / 8 == d / 8 {
      MaskTests(channels[c / 8], c % 8, d % 8);
    }
  }

  // -------------------------------------------------------------------------
  // Decoding
  // -------------------------------------------------------------------------

  /** A request is decoded exactly if it is well formed; then the bitmap holds the channels that
      some entry asks for, and no other. */
  method DecodeScan(p: Bytes) returns (r: Option<ScanRequest>)
    ensures r.Some? <==> WellFormed(p)
    ensures r.Some? ==>
              && r.value.identifier == Word(p, 0) && r.value.kind == Word(p, 0x40)
              && r.value.ssid == p[0x20..0x20 + Word(p, 0x1c)] && r.value.bssid == p[0x14..0x14 + 6]
              && r.value.channelCount == Word(p, 0x54) && |r.value.channels| == 32
              && forall c: nat :: c < 256 ==> (Selected(r.value.channels, c) <==> ListedBefore(p, Word(p, 0x54), c))
  {
    if |p| < HEADER {
      return None;
    }
    var count, ssidLength, kind := Word(p, 0x54), Word(p, 0x1c), Word(p, 0x40);
    if count > 400 || ssidLength > 32 || kind < 1 || kind > 4 || |p| < HEADER + count * ENTRY {
      return None;
    }
    var channels := CollectChannels(p, count);
    return Some(ScanRequest(Word(p, 0), kind, p[0x20..0x20 + ssidLength], p[0x14..0x14 + 6], count, channels[..]));
  }

  method CollectChannels(p: Bytes, count: nat) returns (channels: array<bv8>)
    requires HEADER + count * ENTRY <= |p|
    ensures fresh(channels) && channels.Length == 32
    ensures forall c: nat :: c < 256 ==> (Selected(channels[..], c) <==> ListedBefore(p, count, c))
  {
    channels := new bv8[32](_ => 0);
    for i := 0 to count
      invariant forall c: nat :: c < 256 ==> (Selected(channels[..], c) <==> ListedBefore(p, i, c))
    {
      assert HEADER + (i + 1) * ENTRY <= |p|;
      var number, flags := Word(p, HEADER + i * ENTRY + 4), Word(p, HEADER + i * ENTRY + 8);
      ghost var was := channels[..];
      if number == 0 || number > 196 || Flag(flags, 0x2000)
         || (Flag(flags, 0x8) && number > 14) || (Flag(flags, 0x10) && number <= 14) {
        NothingListed(p, i);
        continue;
      }
      channels[number / 8] := channels[number / 8] | Mask(number % 8);
      assert channels[..] == WithBit(was, number);
      EntryListed(p, i, number, was);
    }
  }

  lemma ListedNext(p: Bytes, n: nat, c: nat)
    requires HEADER + (n + 1) * ENTRY <= |p|
    ensures ListedBefore(p, n + 1, c) <==> ListedBefore(p, n, c) || Lists(p, n, c)
  {
  }

  lemma NothingListed(p: Bytes, n: nat)
    requires HEADER + (n + 1) * ENTRY <= |p| && forall c: nat :: !Lists(p, n, c)
    ensures forall c: nat :: ListedBefore(p, n + 1, c) <==> ListedBefore(p, n, c)
  {
    forall c: nat
      ensures ListedBefore(p, n + 1, c) <==> ListedBefore(p, n, c)
    {
      ListedNext(p, n, c);
    }
  }

  lemma EntryListed(p: Bytes, n: nat, number: nat, was: seq<bv8>)
    requires HEADER + (n + 1) * ENTRY <= |p| && |was| == 32 && number < 256 && Lists(p, n, number)
    requires forall c: nat :: c < 256 ==> (Selected(was, c) <==> ListedBefore(p, n, c))
    ensures forall c: nat :: c < 256 ==> (Selected(WithBit(was, number), c) <==> ListedBefore(p, n + 1, c))
  {
    forall c: nat | c < 256
      ensures Selected(WithBit(was, number), c) <==> ListedBefore(p, n + 1, c)
    {
      ListedNext(p, n, c);
      SettingSelects(was, number, c);
    }
  }

  // -------------------------------------------------------------------------
  // The filter of the scan
  // -------------------------------------------------------------------------

  /** What the scan keeps of a request; a passive scan asks for any name. */
  function FilterOf(r: ScanRequest): Station.Filter
    requires |r.channels| == 32
  {
    Station.Filter(r.channelCount != 0, set c: nat | c < 256 && Selected(r.channels, c),
                   if r.kind == 2 then [] else r.ssid)
  }

  /** A network passes the scan's filter exactly if it has a channel and elements, some entry of
      the request lists its channel or there are no entries, and its name is the one asked for. */
  lemma FilterMeansRequest(p: Bytes, r: ScanRequest, n: Station.Node)
    requires WellFormed(p) && |r.channels| == 32 && r.channelCount == Word(p, 0x54) && n.channel < 256
    requires forall c: nat :: c < 256 ==> (Selected(r.channels, c) <==> ListedBefore(p, Word(p, 0x54), c))
    ensures FilterOf(r).Selects(n) <==>
              && n.hasChannel && n.hasElements
              && (r.channelCount == 0 || ListedBefore(p, r.channelCount, n.channel))
              && (r.kind == 2 || r.ssid == [] || n.ssid == r.ssid)
    ensures FilterOf(r).Selects(n) ==> ChannelSelected(r.channels, r.channelCount != 0, n.channel)
  {
  }
}
