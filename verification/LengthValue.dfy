/**
 The length-value code of CPace (lv_cat, appendix A.1 of draft-irtf-cfrg-cpace-21), used for the
 generator string, the channel identifier and every Bluetooth message, and its strict parser.
 A byte is an integer below 256; `n |= (c & 0x7f) << shift` is written as a sum, the bits being
 disjoint.
 */
module LengthValue {
  import opened Common

  type Byte = x: int | 0 <= x < 256
  type Bytes = seq<Byte>

  /** LEB128 of n, low groups first. */
  function Leb(n: nat): (r: Bytes)
    ensures |r| >= 1
  {
    if n < 128 then [n] else [n % 128 + 128] + Leb(n / 128)
  }

  function LVCat(parts: seq<Bytes>): Bytes {
    if parts == [] then [] else Leb(|parts[0]|) + parts[0] + LVCat(parts[1..])
  }

  method PrependLen(data: Bytes) returns (out: Bytes)
    ensures out == Leb(|data|) + data
  {
    out := [];
    var n: nat := |data|;
    while true
      invariant out + Leb(n) == Leb(|data|)
      decreases n
    {
      if n < 128 {
        out := out + [n];
        break;
      }
      assert out + Leb(n) == out + [n % 128 + 128] + Leb(n / 128);
      out := out + [n % 128 + 128];
      n := n / 128;
    }
    out := out + data;
  }

  lemma LVCatAppend(parts: seq<Bytes>, p: Bytes)
    ensures LVCat(parts + [p]) == LVCat(parts) + Leb(|p|) + p
  {
    if parts == [] {
      assert parts + [p] == [p];
    } else {
      assert (parts + [p])[1..] == parts[1..] + [p];
      LVCatAppend(parts[1..], p);
    }
  }

  method LengthValueCat(parts: seq<Bytes>) returns (out: Bytes)
    ensures out == LVCat(parts)
  {
    out := [];
    for i := 0 to |parts|
      invariant out == LVCat(parts[..i])
    {
      var p := PrependLen(parts[i]);
      assert parts[..i + 1] == parts[..i] + [parts[i]];
      LVCatAppend(parts[..i], parts[i]);
      out := out + p;
    }
    assert parts[..|parts|] == parts;
  }

  // ---- The strict parser ----

  datatype Length = Length(n: nat, used: nat)

  /** Reads a length whose first k bytes were read already: at most three bytes, shortest form. */
  function ReadLength(b: Bytes, k: nat): (r: Option<Length>)
    ensures r.Some? ==> 1 <= r.value.used <= |b|
  {
    if b == [] || k > 2 then None
    else if b[0] < 128 then
      if b[0] == 0 && k > 0 then None else Some(Length(b[0], 1))
    else
      match ReadLength(b[1..], k + 1)
      case None => None
      case Some(l) => Some(Length(b[0] - 128 + 128 * l.n, l.used + 1))
  }

  /** What a length read after k bytes is below: 2^21, 2^14, 2^7. */
  function Cap(k: nat): nat {
    if k == 0 then 2097152 else if k == 1 then 16384 else if k == 2 then 128 else 0
  }

  lemma {:induction false} ReadLengthSound(b: Bytes, k: nat)
    requires ReadLength(b, k).Some?
    ensures var l := ReadLength(b, k).value;
            l.used <= |b| && b[..l.used] == Leb(l.n) && l.n < Cap(k) && (k > 0 ==> l.n > 0)
  {
    if b[0] >= 128 {
      ReadLengthSound(b[1..], k + 1);
      var m := ReadLength(b[1..], k + 1).value;
      var n := b[0] - 128 + 128 * m.n;
      assert n / 128 == m.n && n % 128 == b[0] - 128;
      assert b[..m.used + 1] == [b[0]] + b[1..][..m.used];
    }
  }

  lemma {:induction false} ReadLengthComplete(n: nat, rest: Bytes, k: nat)
    requires n < Cap(k) && (k > 0 ==> n > 0)
    ensures ReadLength(Leb(n) + rest, k) == Some(Length(n, |Leb(n)|))
  {
    if n >= 128 {
      ReadLengthComplete(n / 128, rest, k + 1);
      assert (Leb(n) + rest)[1..] == Leb(n / 128) + rest;
    }
  }

  function SplitLV(b: Bytes): Result<seq<Bytes>> {
    if b == [] then Ok([])
    else
      match ReadLength(b, 0)
      case None => Err
      case Some(l) =>
        if l.n > |b| - l.used then Err
        else
          match SplitLV(b[l.used + l.n..])
          case Err => Err
          case Ok(rest) => Ok([b[l.used..l.used + l.n]] + rest)
  }

  ghost predicate Short(parts: seq<Bytes>) {
    forall p <- parts :: |p| < 2097152
  }

  /** Parsing undoes the encoding of any parts shorter than 2^21 bytes. */
  lemma {:induction false} SplitUndoesCat(parts: seq<Bytes>)
    requires Short(parts)
    ensures SplitLV(LVCat(parts)) == Ok(parts)
  {
    if parts != [] {
      var p, rest := parts[0], LVCat(parts[1..]);
      ReadLengthComplete(|p|, p + rest, 0);
      var b := LVCat(parts);
      assert b == Leb(|p|) + (p + rest);
      var u := |Leb(|p|)|;
      assert b[u + |p|..] == rest && b[u..u + |p|] == p;
      SplitUndoesCat(parts[1..]);
      assert parts == [p] + parts[1..];
    }
  }

  lemma CatCons(p: Bytes, parts: seq<Bytes>)
    ensures LVCat([p] + parts) == Leb(|p|) + p + LVCat(parts)
  {
    assert ([p] + parts)[1..] == parts;
  }

  /** What the parser read first, and what it went on to. */
  lemma FirstPart(b: Bytes) returns (p: Bytes, rest: Bytes)
    requires b != [] && SplitLV(b).Ok?
    ensures |rest| < |b| && b == Leb(|p|) + p + rest && |p| < 2097152
    ensures SplitLV(rest).Ok? && SplitLV(b).value == [p] + SplitLV(rest).value
  {
    ReadLengthSound(b, 0);
    var l := ReadLength(b, 0).value;
    p, rest := b[l.used..l.used + l.n], b[l.used + l.n..];
    Cut3(b, l.used, l.used + l.n);
  }

  lemma Cut3(b: Bytes, i: nat, j: nat)
    requires i <= j <= |b|
    ensures b == b[..i] + b[i..j] + b[j..]
  {
  }

  /** The parser accepts only the one encoding of what it returns. */
  lemma {:induction false} SplitAcceptsOnlyCat(b: Bytes)
    requires SplitLV(b).Ok?
    ensures LVCat(SplitLV(b).value) == b && Short(SplitLV(b).value)
    decreases |b|
  {
    if b != [] {
      var p, rest := FirstPart(b);
      SplitAcceptsOnlyCat(rest);
      hide SplitLV, ReadLength;
      CatCons(p, SplitLV(rest).value);
    }
  }

  method ReadLengthBytes(b: Bytes) returns (r: Option<Length>)
    ensures r == ReadLength(b, 0)
  {
    var n: nat, used: nat, shift, weight: nat := 0, 0, 0, 1;
    assert b[0..] == b;
    while true
      invariant used <= |b| && shift == 7 * used
      invariant ReadLength(b, 0) == match ReadLength(b[used..], used)
                                    case None => None
                                    case Some(l) => Some(Length(n + weight * l.n, used + l.used))
      decreases |b| - used
    {
      if used == |b| || shift > 14 {
        return None;
      }
      var c := b[used];
      if c < 128 {
        return if c == 0 && used > 0 then None else Some(Length(n + weight * c, used + 1));
      }
      assert b[used..][1..] == b[used + 1..];
      ghost var tail := ReadLength(b[used + 1..], used + 1);
      if tail.Some? {
        Distribute(weight, c - 128, tail.value.n);
      }
      n, used, shift, weight := n + weight * (c - 128), used + 1, shift + 7, weight * 128;
    }
  }

  method SplitLengthValues(msg: Bytes) returns (r: Result<seq<Bytes>>)
    ensures r == SplitLV(msg)
  {
    var out: seq<Bytes> := [];
    var b := msg;
    assert SplitLV(b).Ok? ==> out + SplitLV(b).value == SplitLV(b).value;
    while |b| > 0
      invariant SplitLV(msg) == match SplitLV(b) case Err => Err case Ok(rest) => Ok(out + rest)
      decreases |b|
    {
      var l := ReadLengthBytes(b);
      if l.None? || l.value.n > |b| - l.value.used {
        return Err;
      }
      var p, tail := b[l.value.used..l.value.used + l.value.n], b[l.value.used + l.value.n..];
      ghost var rest := SplitLV(tail);
      if rest.Ok? {
        assert out + ([p] + rest.value) == (out + [p]) + rest.value;
      }
      out, b := out + [p], tail;
    }
    assert out + [] == out;
    return Ok(out);
  }

  lemma Distribute(w: nat, c: nat, n: nat)
    ensures w * (c + 128 * n) == w * c + (w * 128) * n
  {
  }

  // ---- Injectivity, for parts of any size ----

  lemma {:induction false} LebPrefixFree(m: nat, x: Bytes, n: nat, y: Bytes)
    requires Leb(m) + x == Leb(n) + y
    ensures m == n && x == y
  {
    var a, b := Leb(m) + x, Leb(n) + y;
    assert a[0] == Leb(m)[0] && b[0] == Leb(n)[0];
    if m < 128 {
      assert x == a[1..] && y == b[1..];
    } else {
      assert a[1..] == Leb(m / 128) + x && b[1..] == Leb(n / 128) + y;
      LebPrefixFree(m / 128, x, n / 128, y);
    }
  }

  lemma {:induction false} CatInjective(p: seq<Bytes>, q: seq<Bytes>)
    requires LVCat(p) == LVCat(q)
    ensures p == q
  {
    if p == [] || q == [] {
      assert p != [] ==> |LVCat(p)| > 0;
      assert q != [] ==> |LVCat(q)| > 0;
    } else {
      var x, y := p[0] + LVCat(p[1..]), q[0] + LVCat(q[1..]);
      assert LVCat(p) == Leb(|p[0]|) + x && LVCat(q) == Leb(|q[0]|) + y;
      LebPrefixFree(|p[0]|, x, |q[0]|, y);
      assert p[0] == x[..|p[0]|] && q[0] == y[..|p[0]|];
      assert LVCat(p[1..]) == x[|p[0]|..] && LVCat(q[1..]) == y[|p[0]|..];
      CatInjective(p[1..], q[1..]);
      assert p == [p[0]] + p[1..] && q == [q[0]] + q[1..];
    }
  }

  // ---- The generator string and the transcript ----

  function ZeroPad(dsi: Bytes, prs: Bytes, block: nat): Bytes {
    var room := block - 1 - (|Leb(|prs|)| + |prs|) - (|Leb(|dsi|)| + |dsi|);
    seq(if room > 0 then room else 0, _ => 0)
  }

  /** lv_cat(DSI, PRS, zero padding, CI, sid). */
  function GeneratorString(dsi: Bytes, prs: Bytes, ci: Bytes, sid: Bytes, block: nat): Bytes {
    LVCat([dsi, prs, ZeroPad(dsi, prs, block), ci, sid])
  }

  /** Two runs share a generator string only with the same password, channel and session. */
  lemma GeneratorStringInjective(dsi: Bytes, block: nat, prs: Bytes, ci: Bytes, sid: Bytes, prs': Bytes, ci': Bytes,
                                 sid': Bytes)
    requires GeneratorString(dsi, prs, ci, sid, block) == GeneratorString(dsi, prs', ci', sid', block)
    ensures prs == prs' && ci == ci' && sid == sid'
  {
    var p := [dsi, prs, ZeroPad(dsi, prs, block), ci, sid];
    var q := [dsi, prs', ZeroPad(dsi, prs', block), ci', sid'];
    CatInjective(p, q);
    assert p[1] == q[1] && p[3] == q[3] && p[4] == q[4];
  }

  /** The first three fields fill the 128-byte hash block exactly when the first two leave room. */
  lemma FirstBlockFilled(dsi: Bytes, prs: Bytes)
    ensures var fixed := |LVCat([dsi, prs])|;
            |LVCat([dsi, prs, ZeroPad(dsi, prs, 128)])| == (if fixed <= 127 then 128 else fixed + 1)
  {
    var z := ZeroPad(dsi, prs, 128);
    LVCatAppend([dsi, prs], z);
    LVCatAppend([dsi], prs);
    LVCatAppend([], dsi);
    assert [dsi, prs] + [z] == [dsi, prs, z] && [dsi] + [prs] == [dsi, prs] && [] + [dsi] == [dsi];
    assert |z| < 128 && |Leb(|z|)| == 1;
  }

  lemma {:induction false} CatConcat(p: seq<Bytes>, q: seq<Bytes>)
    ensures LVCat(p + q) == LVCat(p) + LVCat(q)
  {
    if p == [] {
      assert p + q == q;
    } else {
      assert (p + q)[1..] == p[1..] + q;
      CatConcat(p[1..], q);
    }
  }

  /** The initiator-responder transcript. */
  function Transcript(ya: Bytes, ada: Bytes, yb: Bytes, adb: Bytes): Bytes {
    LVCat([ya, ada]) + LVCat([yb, adb])
  }

  lemma TranscriptInjective(ya: Bytes, ada: Bytes, yb: Bytes, adb: Bytes, ya': Bytes, ada': Bytes, yb': Bytes,
                            adb': Bytes)
    requires Transcript(ya, ada, yb, adb) == Transcript(ya', ada', yb', adb')
    ensures ya == ya' && ada == ada' && yb == yb' && adb == adb'
  {
    CatConcat([ya, ada], [yb, adb]);
    CatConcat([ya', ada'], [yb', adb']);
    var p, q := [ya, ada] + [yb, adb], [ya', ada'] + [yb', adb'];
    CatInjective(p, q);
    assert p[0] == q[0] && p[1] == q[1] && p[2] == q[2] && p[3] == q[3];
  }

  // ---- Bluetooth messages ----

  const BLE_VERSION: Byte := 1
  const BLE_MAX_MESSAGE: nat := 512

  datatype Message = Message(typ: Byte, fields: seq<Bytes>)

  function BleEncode(m: Message): Bytes {
    [BLE_VERSION, m.typ] + LVCat(m.fields)
  }

  function BleDecode(b: Bytes): Result<Message> {
    if |b| < 2 || |b| > BLE_MAX_MESSAGE || b[0] != BLE_VERSION then Err
    else
      match SplitLV(b[2..])
      case Err => Err
      case Ok(fields) => Ok(Message(b[1], fields))
  }

  lemma {:induction false} FieldsShorterThanCat(parts: seq<Bytes>)
    ensures forall p <- parts :: |p| <= |LVCat(parts)|
  {
    if parts != [] {
      FieldsShorterThanCat(parts[1..]);
      assert parts == [parts[0]] + parts[1..];
    }
  }

  /** A message decodes to itself exactly when it fits the largest attribute. */
  lemma BleRoundTrip(m: Message)
    ensures BleDecode(BleEncode(m)) == (if |BleEncode(m)| <= BLE_MAX_MESSAGE then Ok(m) else Err)
  {
    assert BleEncode(m)[2..] == LVCat(m.fields);
    if |BleEncode(m)| <= BLE_MAX_MESSAGE {
      FieldsShorterThanCat(m.fields);
      SplitUndoesCat(m.fields);
    }
  }

  /** No two byte strings are read as the same message. */
  lemma BleCanonical(b: Bytes)
    requires BleDecode(b).Ok?
    ensures BleEncode(BleDecode(b).value) == b
  {
    SplitAcceptsOnlyCat(b[2..]);
    assert b == [b[0], b[1]] + b[2..];
  }
}
