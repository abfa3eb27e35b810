/** The receive clock: host microseconds travel as four big-endian bytes, and the receiver
    rebuilds the full time from them and its own clock. */
module Clock {
  import opened Common

  const WORD := 0x1_0000_0000
  const LIFETIME := 3_000_000
  const CLOCK_OFFSET := 48
  const METADATA := 72

  // -------------------------------------------------------------------------
  // The stamp
  // -------------------------------------------------------------------------

  /** The byte of `value` that has `shift` bytes below it. */
  function ByteAt(value: nat, shift: nat): Byte {
    if shift == 0 then (value % 256) as Byte else ByteAt(value / 256, shift - 1)
  }

  function ReadBigEndian(b: Bytes): nat
    requires |b| == 4
  {
    ((b[0] as nat * 256 + b[1] as nat) * 256 + b[2] as nat) * 256 + b[3] as nat
  }

  /** Writes the low four bytes of `wire`, the highest first. */
  method StampClock(metadata: array<Byte>, wire: nat)
    requires metadata.Length == METADATA
    modifies metadata
    ensures forall k :: 0 <= k < METADATA && !(CLOCK_OFFSET <= k < CLOCK_OFFSET + 4) ==> metadata[k] == old(metadata[k])
    ensures ReadBigEndian(metadata[CLOCK_OFFSET..CLOCK_OFFSET + 4]) == wire % WORD
  {
    for i := 0 to 4
      invariant forall k :: 0 <= k < METADATA && !(CLOCK_OFFSET <= k < CLOCK_OFFSET + i) ==>
                  metadata[k] == old(metadata[k])
      invariant forall k :: CLOCK_OFFSET <= k < CLOCK_OFFSET + i ==> metadata[k] == ByteAt(wire, CLOCK_OFFSET + 3 - k)
    {
      metadata[CLOCK_OFFSET + i] := ByteAt(wire, 3 - i);
    }
    StampReads(wire, metadata[CLOCK_OFFSET..CLOCK_OFFSET + 4]);
  }

  lemma StampReads(wire: nat, b: Bytes)
    requires |b| == 4 && forall k :: 0 <= k < 4 ==> b[k] == ByteAt(wire, 3 - k)
    ensures ReadBigEndian(b) == wire % WORD
  {
    assert b[3] == ByteAt(wire, 0) && b[2] == ByteAt(wire, 1) && b[1] == ByteAt(wire, 2) && b[0] == ByteAt(wire, 3);
    assert ByteAt(wire, 1) == ByteAt(wire / 256, 0);
    assert ByteAt(wire, 2) == ByteAt(wire / 256, 1) == ByteAt(wire / 256 / 256, 0);
    assert ByteAt(wire, 3) == ByteAt(wire / 256, 2) == ByteAt(wire / 256 / 256, 1) == ByteAt(wire / 256 / 256 / 256, 0);
    FourBytes(wire);
  }

  lemma FourBytes(w: nat)
    ensures ((w / 256 / 256 / 256 % 256 * 256 + w / 256 / 256 % 256) * 256 + w / 256 % 256) * 256 + w % 256 == w % WORD
  {
    var b := w / 256;
    var c := b / 256;
    var d := c / 256;
    var rest := ((d % 256 * 256 + c % 256) * 256 + b % 256) * 256 + w % 256;
    assert w == d / 256 * WORD + rest;
    Remainder(w, d / 256, rest);
  }

  lemma Remainder(w: nat, q: nat, r: nat)
    requires w == q * WORD + r && r < WORD
    ensures w % WORD == r
  {
  }

  // -------------------------------------------------------------------------
  // The receiver
  // -------------------------------------------------------------------------

  /** The age in 32-bit arithmetic. */
  function Age(now: nat, wire: nat): nat
    requires wire < WORD
  {
    (now % WORD - wire) % WORD
  }

  function Recover(now: nat, wire: nat): Option<nat>
    requires wire < WORD
  {
    if Age(now, wire) > LIFETIME || now < Age(now, wire) then None else Some(now - Age(now, wire))
  }

  lemma AgeOfStamp(now: nat, sent: nat)
    requires sent <= now
    ensures Age(now, sent % WORD) == (now - sent) % WORD
  {
  }

  /** A stamp is taken for its own time exactly if it is no more than three seconds old; and it
      is taken for any time at all exactly if its age is so modulo 2^32. */
  lemma RecoversExactly(now: nat, sent: nat)
    requires sent <= now
    ensures Recover(now, sent % WORD) == Some(sent) <==> now - sent <= LIFETIME
    ensures Recover(now, sent % WORD).Some? <==> (now - sent) % WORD <= LIFETIME
  {
    AgeOfStamp(now, sent);
    AtMost(now - sent);
  }

  lemma AtMost(n: nat)
    ensures n % WORD <= n && (n < WORD ==> n % WORD == n) && n % WORD < WORD
  {
  }

  /** An age above three seconds and below 2^32 microseconds is always refused. */
  lemma RefusesOld(now: nat, sent: nat)
    requires sent <= now && LIFETIME < now - sent < WORD
    ensures Recover(now, sent % WORD) == None
  {
    AgeOfStamp(now, sent);
  }

  predicate InWindow(now: nat, t: nat) {
    t <= now && now - t <= LIFETIME
  }

  /** An accepted time is the only one in the last three seconds with that stamp, and a stamp is
      accepted exactly if there is such a time. */
  lemma RecoversTheOnly(now: nat, wire: nat)
    requires wire < WORD
    ensures forall t: nat :: InWindow(now, t) && t % WORD == wire <==> Recover(now, wire) == Some(t)
  {
    forall t: nat | InWindow(now, t) && t % WORD == wire
      ensures Recover(now, wire) == Some(t)
    {
      RecoversExactly(now, t);
    }
    if Recover(now, wire).Some? {
      StampOf(now, wire);
    }
  }

  lemma StampOf(now: nat, wire: nat)
    requires wire < WORD && Age(now, wire) <= now
    ensures (now - Age(now, wire)) % WORD == wire
  {
    var q := now / WORD;
    assert now == q * WORD + now % WORD;
    if wire <= now % WORD {
      assert now - Age(now, wire) == q * WORD + wire;
      Remainder(now - Age(now, wire), q, wire);
    } else {
      assert Age(now, wire) == now % WORD - wire + WORD;
      Remainder(now - Age(now, wire), q - 1, wire);
    }
  }

  /** From the sender's clock through the bytes to the receiver's time. */
  method ReceiveTime(metadata: array<Byte>, now: nat) returns (received: Option<nat>)
    requires metadata.Length == METADATA
    ensures var wire := ReadBigEndian(metadata[CLOCK_OFFSET..CLOCK_OFFSET + 4]);
      && (received.Some? ==> InWindow(now, received.value) && received.value % WORD == wire)
      && (received.None? ==> forall t: nat :: InWindow(now, t) ==> t % WORD != wire)
  {
    var wire := ReadBigEndian(metadata[CLOCK_OFFSET..CLOCK_OFFSET + 4]);
    var age := (now % WORD - wire) % WORD;
    RecoversTheOnly(now, wire);
    if age > LIFETIME || now < age {
      return None;
    }
    return Some(now - age);
  }
}
