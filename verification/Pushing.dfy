/** Appending records: the bytes, the dictionary, the header counts and the memo
    after a push, as functions of what was there before. */
module Pushing {
  import opened Options
  import opened Names
  import opened Compress
  import opened Dictionary
  import opened Records

  // ----- records as the caller gives them -----

  datatype RData = Raw(data: Bytes) | Host(host: Name) | Mx(pref: nat, exchange: Name) | Txt(text: Bytes)

  datatype Rec = Rec(section: nat, name: Name, typ: nat, cls: nat, ttl: nat, rdata: RData)

  const A: nat := 1
  const MX: nat := 15
  const AAAA: nat := 28

  /** The record data that goes with a type. SOA (6), SRV (33) and SSHFP (44) are not modelled. */
  predicate Suits(typ: nat, rd: RData) {
    match rd
    case Raw(b) => (typ == A ==> |b| == 4) && (typ == AAAA ==> |b| == 16) && typ !in {2, 5, 6, 12, MX, 16, 33, 44, 99}
    case Host(_) => typ in {2, 5, 12}
    case Mx(pref, _) => typ == MX && pref < 0x1_0000
    case Txt(_) => typ in {16, 99}
  }

  predicate GoodRData(rd: RData) {
    match rd
    case Raw(_) => true
    case Host(n) => GoodName(n)
    case Mx(_, n) => GoodName(n)
    case Txt(_) => true
  }

  predicate GoodRec(r: Rec) {
    && GoodName(r.name) && r.typ < 0x1_0000 && r.cls < 0x1_0000 && r.ttl < 0x1_0000_0000
    && (r.section == QD || (Suits(r.typ, r.rdata) && GoodRData(r.rdata)))
  }

  // ----- bytes -----

  function Be16(v: nat): (b: Bytes)
    ensures |b| == 2 && (v < 0x1_0000 ==> U16At(b, 0) == v)
  {
    [v / 256 % 256, v % 256]
  }

  function Be32(v: nat): (b: Bytes)
    ensures |b| == 4
  {
    Be16(v / 0x1_0000) + Be16(v % 0x1_0000)
  }

  /** Text in counted pieces of at most 255 bytes. */
  function Chunks(t: Bytes): Bytes
    decreases |t|
  {
    if t == [] then []
    else if |t| <= 255 then [|t|] + t
    else [255] + t[..255] + Chunks(t[255..])
  }

  /** The text of counted pieces (txt_parse), if it fits into room bytes. */
  function Unchunk(b: Bytes, room: nat): Option<Bytes>
    decreases |b|
  {
    if b == [] then Some([])
    else
      var n := b[0];
      if |b| - 1 < n || room < n then None
      else
        match Unchunk(b[1 + n..], room - n)
        case Some(t) => Some(b[1..1 + n] + t)
        case None => None
  }

  // ----- pieces of a push -----

  /** The packet bytes and dictionary after a step; a failed step leaves the bytes alone. */
  datatype Put = Put(ok: bool, d: Bytes, dict: seq<nat>)

  function PutName(d: Bytes, dict: seq<nat>, size: nat, n: Name): (q: Put)
    requires |d| <= size && GoodName(n)
    ensures |d| <= |q.d|
  {
    var w := Encoding(d, dict, size - |d|, n);
    if |w| > size - |d| then Put(false, d, dict) else Put(true, d + w, Added(d + w, dict, |d|))
  }

  /** Length-prefixed data that ends in a name, after the fixed bytes pre. */
  function PutHost(d: Bytes, dict: seq<nat>, size: nat, pre: Bytes, n: Name): (q: Put)
    requires |d| <= size && GoodName(n)
    ensures |d| <= |q.d|
  {
    if size - |d| < 3 + |pre| then Put(false, d, dict)
    else
      var lim := size - |d| - 2 - |pre|;
      var w := Encoding(d + [0, 0] + pre, dict, lim, n);
      if |w| > lim then Put(false, d, dict)
      else
        var e := d + Be16(|pre| + |w|) + pre + w;
        Put(true, e, Added(e, dict, |d| + 2 + |pre|))
  }

  function PutBytes(d: Bytes, dict: seq<nat>, size: nat, b: Bytes): (q: Put)
    requires |d| <= size
    ensures |d| <= |q.d|
  {
    if size - |d| < 2 + |b| then Put(false, d, dict) else Put(true, d + Be16(|b|) + b, dict)
  }

  function PutRData(d: Bytes, dict: seq<nat>, size: nat, rd: RData): (q: Put)
    requires |d| <= size && GoodRData(rd)
    ensures |d| <= |q.d|
  {
    match rd
    case Raw(b) => PutBytes(d, dict, size, b)
    case Host(n) => PutHost(d, dict, size, [], n)
    case Mx(pref, n) => PutHost(d, dict, size, Be16(pref), n)
    case Txt(t) => PutBytes(d, dict, size, Chunks(t))
  }

  function TypeAndClass(r: Rec): (b: Bytes)
    ensures |b| == 4
  {
    Be16(r.typ) + Be16(r.cls)
  }

  function FixedPart(r: Rec): (b: Bytes)
    ensures |b| == 8
  {
    TypeAndClass(r) + Be32(ClampTtl(r.typ, r.ttl))
  }

  function PutRecord(d: Bytes, dict: seq<nat>, size: nat, r: Rec): (q: Put)
    requires |d| <= size && GoodRec(r)
    ensures |d| <= |q.d|
  {
    var p := PutName(d, dict, size, r.name);
    if !p.ok then Put(false, d, dict)
    else if size - |p.d| < 4 then Put(false, d, p.dict)
    else if r.section == QD then Put(true, p.d + TypeAndClass(r), p.dict)
    else if size - |p.d| < 10 then Put(false, d, p.dict)
    else
      var q := PutRData(p.d + FixedPart(r), p.dict, size, r.rdata);
      if q.ok then q else Put(false, d, q.dict)
  }

  // ----- the whole push -----

  datatype Pkt = Pkt(d: Bytes, dict: seq<nat>, memo: Memo, size: nat)

  datatype Error = NoBufs | Order | BadSection

  datatype Pushed = Ok(p: Pkt) | Failed(error: Error, dict: seq<nat>)

  /** The header count of a section, one higher. */
  function Bump(d: Bytes, section: nat): (e: Bytes)
    requires |d| >= HEADER
    ensures |e| == |d|
  {
    var o := match section case 1 => 4 case 2 => 6 case 4 => 8 case _ => 10;
    var c := (Count(d, section) + 1) % 0x1_0000;
    d[o := c / 256][o + 1 := c % 256]
  }

  /** Some record already stands in a later section. */
  predicate OutOfOrder(d: Bytes, section: nat)
    requires |d| >= HEADER
  {
    match section
    case 1 => Count(d, AN) + Count(d, NS) + Count(d, AR) != 0
    case 2 => Count(d, NS) + Count(d, AR) != 0
    case 4 => Count(d, AR) != 0
    case _ => false
  }

  function BaseOf(m: Memo, section: nat): nat {
    match section
    case 1 => m.qd.base
    case 2 => m.an.base
    case 4 => m.ns.base
    case _ => m.ar.base
  }

  /** The memo once a record of the section ends the packet at e. */
  function Grown(m: Memo, section: nat, e: nat): Memo {
    match section
    case 1 => m.(qd := Span(m.qd.base, e), an := Span(e, e), ns := Span(e, e), ar := Span(e, e))
    case 2 => m.(an := Span(m.an.base, e), ns := Span(e, e), ar := Span(e, e))
    case 4 => m.(ns := Span(m.ns.base, e), ar := Span(e, e))
    case _ => m.(ar := Span(m.ar.base, e))
  }

  function WithOpt(m: Memo, r: Rec, start: nat): Memo {
    if r.section == AR && r.typ == OPT && m.opt.p == 0 then m.(opt := OptMemo(start, r.cls, r.ttl)) else m
  }

  function Push(p: Pkt, r: Rec): Pushed
    requires HEADER <= |p.d| <= p.size && GoodRec(r)
  {
    var put := PutRecord(p.d, p.dict, p.size, r);
    if !put.ok then Failed(NoBufs, put.dict)
    else if r.section !in {QD, AN, NS, AR} then Failed(BadSection, put.dict)
    else if OutOfOrder(p.d, r.section) then Failed(Order, put.dict)
    else
      var m := if BaseOf(p.memo, r.section) == 0 then Study(put.d) else p.memo;
      Ok(Pkt(Bump(put.d, r.section), put.dict, WithOpt(Grown(m, r.section, |put.d|), r, |p.d|), p.size))
  }
}
