/** The CBOR encoder of the software security key, against a decoder for RFC 8949. */
module Cbor {
  import opened Results

  type byte = x: int | 0 <= x < 256

  /** What the encoder accepts; a dictionary is its entries in insertion order. */
  datatype Value =
    | Int(i: int)
    | Bytes(bs: seq<byte>)
    | Text(s: string)
    | Dict(entries: seq<Entry>)

  datatype Entry = Entry(key: Value, item: Value)

  // ---------------------------------------------------------------- UTF-8

  function EncodeChar(c: char): (bs: seq<byte>)
    ensures 1 <= |bs| <= 4
  {
    var n := c as int;
    var high := n / 64;
    var higher := high / 64;
    if n < 0x80 then [n]
    else if n < 0x800 then [0xC0 + high, 0x80 + n % 64]
    else if n < 0x10000 then [0xE0 + higher, 0x80 + high % 64, 0x80 + n % 64]
    else [0xF0 + higher / 64, 0x80 + higher % 64, 0x80 + high % 64, 0x80 + n % 64]
  }

  function EncodeUtf8(s: string): seq<byte> {
    if s == [] then [] else EncodeChar(s[0]) + EncodeUtf8(s[1..])
  }

  /** What a leading byte says: how many continuation bytes follow it, and its own bits. */
  function Leading(b: byte): Option<(nat, nat)> {
    if b < 0x80 then Some((0, b as int))
    else if b < 0xC0 then None
    else if b < 0xE0 then Some((1, b as int - 0xC0))
    else if b < 0xF0 then Some((2, b as int - 0xE0))
    else if b < 0xF8 then Some((3, b as int - 0xF0))
    else None
  }

  /** The number made of the leading bits so far and of all the continuation bytes. */
  function Continued(bits: nat, bs: seq<byte>): Option<nat>
    decreases bs
  {
    if bs == [] then Some(bits)
    else if 0x80 <= bs[0] < 0xC0 then Continued(bits * 64 + (bs[0] as int - 0x80), bs[1..])
    else None
  }

  /** The least number that may take this many continuation bytes. */
  function LeastFor(count: nat): nat {
    match count case 0 => 0 case 1 => 0x80 case 2 => 0x800 case _ => 0x10000
  }

  /** The first character of the bytes and how many of them it takes. */
  function DecodeChar(bs: seq<byte>): (r: Option<(char, nat)>)
    ensures r.Some? ==> 1 <= r.value.1 <= |bs|
  {
    if bs == [] || Leading(bs[0]).None? then None
    else
      var (count, bits) := Leading(bs[0]).value;
      if |bs| < 1 + count || Continued(bits, bs[1..1 + count]).None? then None
      else
        var n := Continued(bits, bs[1..1 + count]).value;
        if LeastFor(count) <= n && (n < 0xD800 || 0xE000 <= n < 0x110000) then Some((n as char, 1 + count))
        else None
  }

  function DecodeUtf8(bs: seq<byte>): Option<string> {
    if bs == [] then Some([])
    else
      match DecodeChar(bs)
      case None => None
      case Some((c, size)) =>
        match DecodeUtf8(bs[size..])
        case None => None
        case Some(s) => Some([c] + s)
  }

  lemma ContinuedThree(bits: nat, x: byte, y: byte, z: byte)
    requires 0x80 <= x < 0xC0 && 0x80 <= y < 0xC0 && 0x80 <= z < 0xC0
    ensures Continued(bits, [x]) == Some(bits * 64 + (x as int - 0x80))
    ensures Continued(bits, [x, y]) == Some((bits * 64 + (x as int - 0x80)) * 64 + (y as int - 0x80))
    ensures Continued(bits, [x, y, z])
         == Some(((bits * 64 + (x as int - 0x80)) * 64 + (y as int - 0x80)) * 64 + (z as int - 0x80))
  {
    assert [x][1..] == [] && [x, y][1..] == [y] && [y][1..] == [];
    assert [x, y, z][1..] == [y, z] && [y, z][1..] == [z] && [z][1..] == [];
    var one := bits * 64 + (x as int - 0x80);
    var two := one * 64 + (y as int - 0x80);
    assert Continued(bits, [x]) == Continued(one, []);
    assert Continued(bits, [x, y]) == Continued(one, [y]) == Continued(two, []);
    assert Continued(bits, [x, y, z]) == Continued(one, [y, z]) == Continued(two, [z]);
    assert Continued(two, [z]) == Continued(two * 64 + (z as int - 0x80), []);
  }

  /** The bytes of a character's encoding, and that they decode to its number. */
  lemma EncodedChar(c: char)
    ensures var bs := EncodeChar(c);
            && Leading(bs[0]).Some?
            && var (count, bits) := Leading(bs[0]).value;
            && |bs| == 1 + count && LeastFor(count) <= c as int
            && Continued(bits, bs[1..]) == Some(c as int)
  {
    var n, bs := c as int, EncodeChar(c);
    var high := n / 64;
    var higher := high / 64;
    if n < 0x80 {
      assert bs[1..] == [];
    } else if n < 0x800 {
      assert bs[1..] == [bs[1]];
      ContinuedThree(high, bs[1], bs[1], bs[1]);
    } else if n < 0x10000 {
      assert bs[1..] == [bs[1], bs[2]];
      ContinuedThree(higher, bs[1], bs[2], bs[2]);
    } else {
      assert bs[1..] == [bs[1], bs[2], bs[3]];
      ContinuedThree(higher / 64, bs[1], bs[2], bs[3]);
    }
  }

  lemma CharRoundTrip(c: char, rest: seq<byte>)
    ensures DecodeChar(EncodeChar(c) + rest) == Some((c, |EncodeChar(c)|))
  {
    hide EncodeChar, Continued, Leading, LeastFor;
    var bs := EncodeChar(c);
    EncodedChar(c);
    assert (bs + rest)[1..|bs|] == bs[1..];
    assert (bs + rest)[0] == bs[0];
  }

  /** A number in two, three or four groups of six bits is encoded by just these groups. */
  lemma GroupsOfSix(c: char, bits: nat, x: byte, y: byte, z: byte)
    requires 0x80 <= x < 0xC0 && 0x80 <= y < 0xC0 && 0x80 <= z < 0xC0
    ensures var n := bits * 64 + (x as int - 0x80);
            c as int == n && 0x80 <= n < 0x800 ==> EncodeChar(c) == [0xC0 + bits, x]
    ensures var n := (bits * 64 + (x as int - 0x80)) * 64 + (y as int - 0x80);
            c as int == n && 0x800 <= n < 0x10000 ==> EncodeChar(c) == [0xE0 + bits, x, y]
    ensures var n := ((bits * 64 + (x as int - 0x80)) * 64 + (y as int - 0x80)) * 64 + (z as int - 0x80);
            c as int == n && 0x10000 <= n < 0x110000 ==> EncodeChar(c) == [0xF0 + bits, x, y, z]
  {
    var one := bits * 64 + (x as int - 0x80);
    var two := one * 64 + (y as int - 0x80);
    assert one / 64 == bits && two / 64 == one;
    assert (two * 64 + (z as int - 0x80)) / 64 == two;
  }

  /** What decodes to a character is the character's one encoding. */
  lemma CharIsUnique(bs: seq<byte>)
    requires DecodeChar(bs).Some?
    ensures var (c, size) := DecodeChar(bs).value;
            EncodeChar(c) == bs[..size]
  {
    var (count, bits) := Leading(bs[0]).value;
    var tail := bs[1..1 + count];
    ContinuationBytes(bits, tail);
    var c := DecodeChar(bs).value.0;
    if count == 0 {
      assert tail == [];
    } else {
      hide EncodeChar, Continued;
      assert bs[1] == tail[0] && (count > 1 ==> bs[2] == tail[1]) && (count > 2 ==> bs[3] == tail[2]);
      var x, y, z := tail[0], tail[if count > 1 then 1 else 0], tail[if count > 2 then 2 else 0];
      ContinuedThree(bits, x, y, z);
      GroupsOfSix(c, bits, x, y, z);
      assert tail == (if count == 1 then [x] else if count == 2 then [x, y] else [x, y, z]);
    }
  }

  lemma {:induction false} ContinuationBytes(bits: nat, bs: seq<byte>)
    requires Continued(bits, bs).Some?
    ensures forall i :: 0 <= i < |bs| ==> 0x80 <= bs[i] < 0xC0
    decreases bs
  {
    if bs != [] {
      ContinuationBytes(bits * 64 + (bs[0] as int - 0x80), bs[1..]);
    }
  }

  lemma {:induction false} Utf8RoundTrip(s: string)
    ensures DecodeUtf8(EncodeUtf8(s)) == Some(s)
  {
    if s != [] {
      var first, rest := EncodeChar(s[0]), EncodeUtf8(s[1..]);
      CharRoundTrip(s[0], rest);
      Utf8RoundTrip(s[1..]);
      assert (first + rest)[|first|..] == rest;
      assert [s[0]] + s[1..] == s;
    }
  }

  lemma EncodedHead(c: char, s: string)
    ensures EncodeUtf8([c] + s) == EncodeChar(c) + EncodeUtf8(s)
  {
    assert ([c] + s)[1..] == s;
  }

  /** What decodes is one character, and what follows it. */
  lemma DecodedHead(bs: seq<byte>)
    requires bs != [] && DecodeUtf8(bs).Some?
    ensures DecodeChar(bs).Some? && 0 < DecodeChar(bs).value.1 <= |bs|
    ensures DecodeUtf8(bs[DecodeChar(bs).value.1..]).Some?
    ensures DecodeUtf8(bs).value == [DecodeChar(bs).value.0] + DecodeUtf8(bs[DecodeChar(bs).value.1..]).value
  {
    hide DecodeChar;
  }

  /** Text has one encoding only: what decodes to it is what it encodes to. */
  lemma {:induction false} Utf8IsUnique(bs: seq<byte>)
    requires DecodeUtf8(bs).Some?
    ensures EncodeUtf8(DecodeUtf8(bs).value) == bs
  {
    if bs != [] {
      DecodedHead(bs);
      CharIsUnique(bs);
      hide EncodeChar, DecodeChar, DecodeUtf8, EncodeUtf8;
      var (c, size) := DecodeChar(bs).value;
      Utf8IsUnique(bs[size..]);
      EncodedHead(c, DecodeUtf8(bs[size..]).value);
      assert bs == bs[..size] + bs[size..];
    }
  }

  // ---------------------------------------------------------------- the encoder

  /** A major type and its argument, in one, two or three bytes; longer arguments overflow. */
  function Head(major: nat, length: nat): Result<seq<byte>, string>
    requires major < 8
  {
    if length < 24 then Ok([major * 32 + length])
    else if length < 256 then Ok([major * 32 + 24, length])
    else if length < 65536 then Ok([major * 32 + 25, length / 256, length % 256])
    else Err("int too big to convert")
  }

  function Joined(first: Result<seq<byte>, string>, second: Result<seq<byte>, string>): Result<seq<byte>, string> {
    if first.Err? then first
    else if second.Err? then second
    else Ok(first.value + second.value)
  }

  function Encode(value: Value): Result<seq<byte>, string>
    decreases value, 1
  {
    match value
    case Int(i) => if i >= 0 then Head(0, i) else Head(1, -1 - i)
    case Bytes(bs) => Joined(Head(2, |bs|), Ok(bs))
    case Text(s) => Joined(Head(3, |EncodeUtf8(s)|), Ok(EncodeUtf8(s)))
    case Dict(entries) => Joined(Head(5, |entries|), EncodeEntries(entries))
  }

  function EncodeEntries(entries: seq<Entry>): Result<seq<byte>, string>
    decreases entries, 0
  {
    if entries == [] then Ok([])
    else
      Joined(EncodeEntry(entries[0]), EncodeEntries(entries[1..]))
  }

  function EncodeEntry(entry: Entry): Result<seq<byte>, string>
    decreases entry, 0
  {
    Joined(Encode(entry.key), Encode(entry.item))
  }

  /** Integers of at most two bytes, and lengths below 65536 throughout. */
  predicate Encodable(value: Value) {
    match value
    case Int(i) => -65536 <= i < 65536
    case Bytes(bs) => |bs| < 65536
    case Text(s) => |EncodeUtf8(s)| < 65536
    case Dict(entries) =>
      |entries| < 65536 && forall e <- entries :: Encodable(e.key) && Encodable(e.item)
  }

  lemma {:induction false} EncodesExactlyEncodable(value: Value)
    ensures Encode(value).Ok? <==> Encodable(value)
    decreases value, 1
  {
    if value.Dict? {
      EncodesExactlyEncodableEntries(value.entries);
    }
  }

  lemma {:induction false} EncodesExactlyEncodableEntries(entries: seq<Entry>)
    ensures EncodeEntries(entries).Ok? <==> forall e <- entries :: Encodable(e.key) && Encodable(e.item)
    decreases entries, 0
  {
    if entries != [] {
      EncodesExactlyEncodableEntry(entries[0]);
      EncodesExactlyEncodableEntries(entries[1..]);
      assert entries == [entries[0]] + entries[1..];
    }
  }

  lemma {:induction false} EncodesExactlyEncodableEntry(entry: Entry)
    ensures EncodeEntry(entry).Ok? <==> Encodable(entry.key) && Encodable(entry.item)
    decreases entry, 0
  {
    EncodesExactlyEncodable(entry.key);
    EncodesExactlyEncodable(entry.item);
  }

  // ---------------------------------------------------------------- a decoder for RFC 8949

  /** A big-endian number. */
  function Number(bs: seq<byte>): nat {
    if bs == [] then 0 else Number(bs[..|bs| - 1]) * 256 + bs[|bs| - 1] as int
  }

  /** How many bytes follow an initial byte with this additional information (section 3). */
  function ArgumentSize(info: nat): Option<nat> {
    if info < 24 then Some(0)
    else if info == 24 then Some(1)
    else if info == 25 then Some(2)
    else if info == 26 then Some(4)
    else if info == 27 then Some(8)
    else None
  }

  /** A major type, its argument in any of the lengths the standard allows, and what follows. */
  function DecodeHead(bs: seq<byte>): (r: Option<(nat, nat, seq<byte>)>)
    ensures r.Some? ==> r.value.0 < 8 && |r.value.2| < |bs|
  {
    if bs == [] then None
    else
      match ArgumentSize(bs[0] % 32)
      case None => None
      case Some(size) =>
        if |bs| < 1 + size then None
        else
          var argument := if size == 0 then bs[0] % 32 else Number(bs[1..1 + size]);
          Some((bs[0] / 32, argument, bs[1 + size..]))
  }

  /** The first data item of the bytes and what follows it. */
  function Decode(bs: seq<byte>): (r: Option<(Value, seq<byte>)>)
    ensures r.Some? ==> |r.value.1| < |bs|
    decreases |bs|, 0, 0
  {
    match DecodeHead(bs)
    case None => None
    case Some((major, n, rest)) =>
      if major == 0 then Some((Int(n), rest))
      else if major == 1 then Some((Int(-1 - n), rest))
      else if major == 2 && n <= |rest| then Some((Bytes(rest[..n]), rest[n..]))
      else if major == 3 && n <= |rest| && DecodeUtf8(rest[..n]).Some? then
        Some((Text(DecodeUtf8(rest[..n]).value), rest[n..]))
      else if major == 5 && DecodeEntries(n, rest).Some? then
        Some((Dict(DecodeEntries(n, rest).value.0), DecodeEntries(n, rest).value.1))
      else None
  }

  function DecodeEntry(bs: seq<byte>): (r: Option<(Entry, seq<byte>)>)
    ensures r.Some? ==> |r.value.1| < |bs|
    decreases |bs|, 1, 0
  {
    match Decode(bs)
    case None => None
    case Some((key, afterKey)) =>
      match Decode(afterKey)
      case None => None
      case Some((item, rest)) => Some((Entry(key, item), rest))
  }

  function DecodeEntries(n: nat, bs: seq<byte>): (r: Option<(seq<Entry>, seq<byte>)>)
    ensures r.Some? ==> |r.value.0| == n && |r.value.1| <= |bs|
    decreases |bs|, 2, n
  {
    if n == 0 then Some(([], bs))
    else
      match DecodeEntry(bs)
      case None => None
      case Some((entry, after)) =>
        match DecodeEntries(n - 1, after)
        case None => None
        case Some((more, rest)) => Some(([entry] + more, rest))
  }

  // ---------------------------------------------------------------- round trip

  lemma TwoByteNumber(a: byte, b: byte)
    ensures Number([a]) == a as int && Number([a, b]) == a as int * 256 + b as int
  {
    assert [a][..0] == [] && [a, b][..1] == [a];
  }

  lemma HeadRoundTrip(major: nat, n: nat, rest: seq<byte>)
    requires major < 8 && Head(major, n).Ok?
    ensures DecodeHead(Head(major, n).value + rest) == Some((major, n, rest))
  {
    hide Number;
    var bs := Head(major, n).value + rest;
    if n < 24 {
      assert bs[1..] == rest;
    } else if n < 256 {
      TwoByteNumber(n, 0);
      assert bs[1..2] == [n] && bs[2..] == rest;
    } else {
      TwoByteNumber(n / 256, n % 256);
      assert bs[1..3] == [n / 256, n % 256] && bs[3..] == rest;
    }
  }

  /** Decoding an encoding, whatever follows it, gives the value back and leaves what follows. */
  lemma {:induction false} RoundTrip(value: Value, rest: seq<byte>)
    requires Encode(value).Ok?
    ensures Decode(Encode(value).value + rest) == Some((value, rest))
    decreases value, 1
  {
    hide Head, DecodeHead, EncodeUtf8, DecodeUtf8, EncodeEntries, DecodeEntries;
    match value
    case Int(i) =>
      if i >= 0 { HeadRoundTrip(0, i, rest); } else { HeadRoundTrip(1, -1 - i, rest); }
    case Bytes(bs) =>
      HeadRoundTrip(2, |bs|, bs + rest);
      assert Head(2, |bs|).value + bs + rest == Head(2, |bs|).value + (bs + rest);
      assert (bs + rest)[..|bs|] == bs && (bs + rest)[|bs|..] == rest;
    case Text(s) =>
      var bs := EncodeUtf8(s);
      HeadRoundTrip(3, |bs|, bs + rest);
      Utf8RoundTrip(s);
      assert Head(3, |bs|).value + bs + rest == Head(3, |bs|).value + (bs + rest);
      assert (bs + rest)[..|bs|] == bs && (bs + rest)[|bs|..] == rest;
    case Dict(entries) =>
      var bs := EncodeEntries(entries).value;
      HeadRoundTrip(5, |entries|, bs + rest);
      EntriesRoundTrip(entries, rest);
      assert Head(5, |entries|).value + bs + rest == Head(5, |entries|).value + (bs + rest);
  }

  lemma DecodeFirst(n: nat, bs: seq<byte>, entry: Entry, after: seq<byte>, more: seq<Entry>, rest: seq<byte>)
    requires DecodeEntry(bs) == Some((entry, after)) && DecodeEntries(n, after) == Some((more, rest))
    ensures DecodeEntries(n + 1, bs) == Some(([entry] + more, rest))
  {
  }

  lemma {:induction false} EntriesRoundTrip(entries: seq<Entry>, rest: seq<byte>)
    requires EncodeEntries(entries).Ok?
    ensures DecodeEntries(|entries|, EncodeEntries(entries).value + rest) == Some((entries, rest))
    decreases entries, 0
  {
    hide EncodeEntry, DecodeEntry, DecodeEntries, Encode, Decode;
    if entries == [] {
      NoEntries(rest);
    } else {
      var first, more := EncodeEntry(entries[0]).value, EncodeEntries(entries[1..]).value;
      var bs := first + (more + rest);
      EntryRoundTrip(entries[0], more + rest);
      EntriesRoundTrip(entries[1..], rest);
      DecodeFirst(|entries| - 1, bs, entries[0], more + rest, entries[1..], rest);
      assert EncodeEntries(entries).value + rest == bs;
      assert entries == [entries[0]] + entries[1..];
    }
  }

  lemma NoEntries(rest: seq<byte>)
    ensures DecodeEntries(0, [] + rest) == Some(([], rest))
  {
    assert [] + rest == rest;
  }

  lemma {:induction false} EntryRoundTrip(entry: Entry, rest: seq<byte>)
    requires EncodeEntry(entry).Ok?
    ensures DecodeEntry(EncodeEntry(entry).value + rest) == Some((entry, rest))
    decreases entry, 0
  {
    hide Encode, Decode;
    var k, i := Encode(entry.key).value, Encode(entry.item).value;
    RoundTrip(entry.key, i + rest);
    RoundTrip(entry.item, rest);
    assert k + i + rest == k + (i + rest);
  }

  /** No encoding is a prefix of another value's, so in particular no two values share one. */
  lemma EncodingIsPrefixFree(v: Value, w: Value)
    requires Encode(v).Ok? && Encode(w).Ok?
    requires Encode(v).value <= Encode(w).value
    ensures v == w
  {
    var a, b := Encode(v).value, Encode(w).value;
    RoundTrip(v, b[|a|..]);
    RoundTrip(w, []);
    assert a + b[|a|..] == b && b + [] == b;
  }

  // ---------------------------------------------------------------- shortest form (section 4.2.1)

  lemma {:induction false} NumberBound(bs: seq<byte>)
    ensures |bs| == 1 ==> Number(bs) < 256
    ensures |bs| == 2 ==> Number(bs) < 65536
  {
    if |bs| == 1 {
      assert bs[..0] == [];
    } else if |bs| == 2 {
      NumberBound(bs[..1]);
    }
  }

  /** No other head for the same major type and argument is shorter. */
  lemma HeadIsShortest(bs: seq<byte>)
    requires DecodeHead(bs).Some?
    ensures var (major, n, rest) := DecodeHead(bs).value;
            Head(major, n).Ok? ==> |Head(major, n).value| <= |bs| - |rest|
  {
    var size := ArgumentSize(bs[0] % 32).value;
    if size > 0 {
      NumberBound(bs[1..1 + size]);
    }
  }

  /** Nor is any other encoding of the same value that the standard lets a decoder accept. */
  lemma {:induction false} EncodingIsShortest(bs: seq<byte>)
    requires Decode(bs).Some?
    ensures var (v, rest) := Decode(bs).value;
            Encode(v).Ok? ==> |Encode(v).value| <= |bs| - |rest|
    decreases |bs|, 0, 0
  {
    HeadIsShortest(bs);
    var (major, n, rest) := DecodeHead(bs).value;
    if major == 3 {
      Utf8IsUnique(rest[..n]);
    } else if major == 5 {
      EntriesAreShortest(n, rest);
    }
  }

  lemma {:induction false} EntriesAreShortest(n: nat, bs: seq<byte>)
    requires DecodeEntries(n, bs).Some?
    ensures var (entries, rest) := DecodeEntries(n, bs).value;
            EncodeEntries(entries).Ok? ==> |EncodeEntries(entries).value| <= |bs| - |rest|
    decreases |bs|, 2, n
  {
    if n > 0 {
      hide Decode, Encode;
      var (entry, after) := DecodeEntry(bs).value;
      EntryIsShortest(bs);
      EntriesAreShortest(n - 1, after);
      var more := DecodeEntries(n - 1, after).value.0;
      assert ([entry] + more)[1..] == more;
    }
  }

  lemma {:induction false} EntryIsShortest(bs: seq<byte>)
    requires DecodeEntry(bs).Some?
    ensures var (entry, rest) := DecodeEntry(bs).value;
            EncodeEntry(entry).Ok? ==> |EncodeEntry(entry).value| <= |bs| - |rest|
    decreases |bs|, 1, 0
  {
    EncodingIsShortest(bs);
    EncodingIsShortest(Decode(bs).value.1);
  }
}
