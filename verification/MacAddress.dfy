/**
 The address conversions of include/std_port_common.h. Each macro loads the low four bytes of
 the address as a native (little-endian) word, turns it into a number with htonl, adds a
 constant, and stores it back the same way.
 */
module MacAddress {
  import opened Common

  type Word = w: int | 0 <= w < TWO_32

  /** The number a native load sees in four bytes. */
  function LoadWord(b: seq<Byte>): (w: Word)
    requires |b| == 4
  {
    b[0] as int + b[1] as int * 0x100 + b[2] as int * 0x1_0000 + b[3] as int * 0x100_0000
  }

  function ByteOf(w: Word, i: nat): Byte
    requires i < 4
  {
    match i
    case 0 => w % 0x100
    case 1 => w / 0x100 % 0x100
    case 2 => w / 0x1_0000 % 0x100
    case _ => w / 0x100_0000
  }

  /** The four bytes a native store leaves. */
  function StoreWord(w: Word): (b: seq<Byte>)
    ensures |b| == 4
  {
    [ByteOf(w, 0), ByteOf(w, 1), ByteOf(w, 2), ByteOf(w, 3)]
  }

  /** htonl on a little-endian processor reverses the bytes. */
  function Htonl(w: Word): Word {
    LoadWord([ByteOf(w, 3), ByteOf(w, 2), ByteOf(w, 1), ByteOf(w, 0)])
  }

  /** The last four bytes of an address as one number, most significant byte first. */
  function Low(m: Mac): Word {
    ((m[2] as int * 0x100 + m[3] as int) * 0x100 + m[4] as int) * 0x100 + m[5] as int
  }

  /** `after` is `before` with its low number moved by `d`, modulo 2^32, and nothing else changed. */
  ghost predicate Moved(before: Mac, after: Mac, d: int) {
    after[..2] == before[..2] && Low(after) == (Low(before) + d) % TWO_32
  }

  lemma BytesOfWord(a: Byte, b: Byte, c: Byte, d: Byte)
    ensures var w := LoadWord([a, b, c, d]);
            ByteOf(w, 0) == a && ByteOf(w, 1) == b && ByteOf(w, 2) == c && ByteOf(w, 3) == d
  {
    var w := LoadWord([a, b, c, d]);
    var x, y, z := a as int, b as int, c as int;
    assert w == x + 0x100 * (y + 0x100 * (z + 0x100 * d as int));
    assert w / 0x100 == y + 0x100 * (z + 0x100 * d as int);
    assert w / 0x1_0000 == z + 0x100 * d as int;
    assert w / 0x100_0000 == d;
  }

  lemma WordOfBytes(w: Word)
    ensures LoadWord(StoreWord(w)) == w
  {
    var q1, q2 := w / 0x100, w / 0x1_0000;
    assert q1 / 0x100 == q2 && q2 / 0x100 == w / 0x100_0000;
  }

  /** What the macros read is the low number of the address. */
  lemma LoadedIsLow(m: Mac)
    ensures Htonl(LoadWord(m[2..])) == Low(m)
  {
    BytesOfWord(m[2], m[3], m[4], m[5]);
    assert m[2..] == [m[2], m[3], m[4], m[5]];
  }

  /** What they store is an address with that low number. */
  lemma StoredIsLow(m: Mac, w: Word)
    ensures Low(m[..2] + StoreWord(Htonl(w))) == w
  {
    BytesOfWord(ByteOf(w, 3), ByteOf(w, 2), ByteOf(w, 1), ByteOf(w, 0));
    WordOfBytes(w);
  }

  // ---------------------------------------------------------------- how they compose

  /** An address is its first two bytes and its low number. */
  lemma SameParts(a: Mac, b: Mac)
    requires a[..2] == b[..2] && Low(a) == Low(b)
    ensures a == b
  {
    BytesOfWord(a[5], a[4], a[3], a[2]);
    BytesOfWord(b[5], b[4], b[3], b[2]);
    assert a[0] == a[..2][0] == b[0] && a[1] == a[..2][1] == b[1];
  }

  lemma WrapAdds(x: Word, d: int, e: int)
    ensures ((x + d) % TWO_32 + e) % TWO_32 == (x + d + e) % TWO_32
  {
    var q, r := (x + d) / TWO_32, (x + d) % TWO_32;
    var q', r' := (r + e) / TWO_32, (r + e) % TWO_32;
    assert x + d + e == (q + q') * TWO_32 + r';
  }

  lemma WrapCancels(x: Word, y: Word, d: int)
    requires (x + d) % TWO_32 == (y + d) % TWO_32
    ensures x == y
  {
    WrapAdds(x, d, -d);
    WrapAdds(y, d, -d);
  }

  /** Two moves are one move by the sum, with carries and wrap-around included. */
  lemma MovesAdd(a: Mac, b: Mac, c: Mac, d: int, e: int)
    requires Moved(a, b, d) && Moved(b, c, e)
    ensures Moved(a, c, d + e)
  {
    WrapAdds(Low(a), d, e);
  }

  /** A move has one result: on every address the macros are functions, and one-to-one. */
  lemma MoveIsOneToOne(a: Mac, b: Mac, a': Mac, b': Mac, d: int)
    requires Moved(a, b, d) && Moved(a', b', d)
    ensures a == a' <==> b == b'
  {
    if a == a' {
      SameParts(b, b');
    }
    if b == b' {
      WrapCancels(Low(a), Low(a'), d);
      SameParts(a, a');
    }
  }

  /** The last four bytes are one number, the most significant byte first. */
  lemma MoveCountsLastFourBytes(a: Mac, b: Mac, d: int)
    requires Moved(a, b, d)
    ensures b[0] == a[0] && b[1] == a[1]
    ensures b[2] as int * 0x100_0000 + b[3] as int * 0x1_0000 + b[4] as int * 0x100 + b[5] ==
            (a[2] as int * 0x100_0000 + a[3] as int * 0x1_0000 + a[4] as int * 0x100 + a[5] + d) % 0x1_0000_0000
  {
    assert a[..2][0] == a[0] && b[..2][0] == b[0] && a[..2][1] == a[1] && b[..2][1] == b[1];
  }

  /** Without a carry out of the last byte, only that byte changes. */
  lemma NoCarryMovesLastByte(a: Mac, b: Mac, d: int)
    requires Moved(a, b, d) && 0 <= a[5] + d < 256
    ensures b == a[5 := a[5] + d]
  {
    var c: Mac := a[5 := a[5] + d];
    assert c[..2] == a[..2] && Low(c) == Low(a) + d;
    SameParts(b, c);
  }

  /** A move and the opposite move restore every address: AP to STA with STA to AP, and BT to
      STA with STA to BT, in either order. */
  lemma OppositeMovesCancel(a: Mac, b: Mac, c: Mac, d: int)
    requires Moved(a, b, d) && Moved(b, c, -d)
    ensures c == a
  {
    MovesAdd(a, b, c, d, -d);
    SameParts(c, a);
  }

  /** The station, access point and Bluetooth addresses lie one apart: STA to AP twice is STA to BT. */
  lemma TwoApStepsAreOneBtStep(sta: Mac, ap: Mac, twice: Mac, bt: Mac)
    requires Moved(sta, ap, 1) && Moved(ap, twice, 1) && Moved(sta, bt, 2)
    ensures twice == bt
  {
    MovesAdd(sta, ap, twice, 1, 1);
    SameParts(twice, bt);
  }

  // ---------------------------------------------------------------- the macros

  /** The common body of the four macros, in place. */
  method Move(mac: array<Byte>, d: int)
    requires mac.Length == 6
    modifies mac
    ensures Moved(old(mac[..]), mac[..], d)
  {
    var word := LoadWord(mac[2..]);
    var bytes := StoreWord(Htonl((Htonl(word) + d) % TWO_32));
    LoadedIsLow(mac[..]);
    StoredIsLow(mac[..], (Htonl(word) + d) % TWO_32);
    assert mac[..][2..] == mac[2..];
    mac[2], mac[3], mac[4], mac[5] := bytes[0], bytes[1], bytes[2], bytes[3];
    assert mac[..] == old(mac[..])[..2] + bytes;
  }

  method AddrAp2Sta(mac: array<Byte>)
    requires mac.Length == 6
    modifies mac
    ensures Moved(old(mac[..]), mac[..], -1)
    ensures old(mac[5]) >= 1 ==> mac[..] == old(mac[..])[5 := old(mac[5]) - 1]
  {
    Move(mac, -1);
    if old(mac[5]) >= 1 {
      NoCarryMovesLastByte(old(mac[..]), mac[..], -1);
    }
  }

  method AddrSta2Ap(mac: array<Byte>)
    requires mac.Length == 6
    modifies mac
    ensures Moved(old(mac[..]), mac[..], 1)
    ensures old(mac[5]) <= 254 ==> mac[..] == old(mac[..])[5 := old(mac[5]) + 1]
  {
    Move(mac, 1);
    if old(mac[5]) <= 254 {
      NoCarryMovesLastByte(old(mac[..]), mac[..], 1);
    }
  }

  method AddrBt2Sta(mac: array<Byte>)
    requires mac.Length == 6
    modifies mac
    ensures Moved(old(mac[..]), mac[..], -2)
    ensures old(mac[5]) >= 2 ==> mac[..] == old(mac[..])[5 := old(mac[5]) - 2]
  {
    Move(mac, -2);
    if old(mac[5]) >= 2 {
      NoCarryMovesLastByte(old(mac[..]), mac[..], -2);
    }
  }

  method AddrSta2Bt(mac: array<Byte>)
    requires mac.Length == 6
    modifies mac
    ensures Moved(old(mac[..]), mac[..], 2)
    ensures old(mac[5]) <= 253 ==> mac[..] == old(mac[..])[5 := old(mac[5]) + 2]
  {
    Move(mac, 2);
    if old(mac[5]) <= 253 {
      NoCarryMovesLastByte(old(mac[..]), mac[..], 2);
    }
  }

  /** Every conversion followed by its opposite, on one buffer, restores it. */
  method ConvertAndBack(mac: array<Byte>)
    requires mac.Length == 6
    modifies mac
    ensures mac[..] == old(mac[..])
  {
    AddrAp2Sta(mac);
    ghost var sta := mac[..];
    AddrSta2Ap(mac);
    OppositeMovesCancel(old(mac[..]), sta, mac[..], -1);
    AddrSta2Bt(mac);
    ghost var bt := mac[..];
    AddrBt2Sta(mac);
    OppositeMovesCancel(old(mac[..]), bt, mac[..], 2);
  }
}
