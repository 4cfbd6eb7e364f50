/** Reading record data and names back (dns_any_parse, dns_d_expand). */
module RecordData {
  import opened Options
  import opened Names
  import opened Records
  import opened Pushing
  import opened Layout
  import opened Termination

  const MAX_NAME: nat := 255

  /** The name at p; Unfinished when the reader never stops. */
  function Expand(d: Bytes, p: nat): Reading { Read(d, p, 0, 128 * |d|) }

  /** The name at p, if its text fits into a host buffer. */
  function HostAt(d: Bytes, p: nat): Option<Name> {
    match Expand(d, p)
    case Labels(n) => if |Text(n)| <= MAX_NAME then Some(n) else None
    case _ => None
  }

  /** Types whose data this model parses; SOA, SRV, OPT and SSHFP are left out. */
  predicate Parsed(typ: nat) { typ !in {6, 33, OPT, 44} }

  /** The data of a record, for a caller with room bytes for raw data and text. */
  function AnyParse(d: Bytes, rr: RR, room: nat): Option<RData>
    requires rr.rdp + rr.rdlen <= |d| && Parsed(rr.typ)
  {
    var p, b := rr.rdp, d[rr.rdp..rr.rdp + rr.rdlen];
    match rr.typ
    case 1 => if rr.rdlen != 4 then None else Some(Raw(b))
    case 28 => if rr.rdlen != 16 then None else Some(Raw(b))
    case 15 =>
      if rr.rdlen < 3 then None
      else (match HostAt(d, p + 2) case Some(n) => Some(Mx(U16At(d, p), n)) case None => None)
    case _ =>
      if rr.typ in {2, 5, 12} then (match HostAt(d, p) case Some(n) => Some(Host(n)) case None => None)
      else if rr.typ in {16, 99} then (match Unchunk(b, room) case Some(t) => Some(Txt(t)) case None => None)
      else if rr.rdlen > room then None
      else Some(Raw(b))
  }

  lemma {:induction false} ReadMore(d: Bytes, p: nat, h: nat, f: nat, g: nat)
    requires f <= g && !Read(d, p, h, f).Unfinished?
    ensures Read(d, p, h, g) == Read(d, p, h, f)
    decreases f
  {
    if p < |d| && f > 0 {
      if d[p] / 64 == 0 && d[p] != 0 && |d| - (p + 1) >= d[p] {
        ReadMore(d, p + 1 + d[p], 0, f - 1, g - 1);
      } else if d[p] / 64 == 3 && h + 1 <= MAX_PTRS && |d| - p >= 2 {
        ReadMore(d, Target(d, p), h + 1, f - 1, g - 1);
      }
    }
  }

  /** A stored name is what the reader returns. */
  lemma ExpandStored(d: Bytes, p: nat)
    requires Stored(d, p).Some?
    ensures Expand(d, p) == Labels(Stored(d, p).value)
  {
    var n := Stored(d, p).value;
    var f := Steps(n, 0);
    ReadStored(d, p, p, 0, f);
    HaltsInTime(d, p);
    if f <= 128 * |d| { ReadMore(d, p, 0, f, 128 * |d|); } else { ReadMore(d, p, 0, 128 * |d|, f); }
  }

  /** The buffers of the caller are large enough. */
  predicate Fits(rd: RData, room: nat) {
    match rd
    case Raw(b) => |b| <= room
    case Host(n) => |Text(n)| <= MAX_NAME
    case Mx(_, n) => |Text(n)| <= MAX_NAME
    case Txt(t) => |t| <= room
  }

  lemma {:induction false} UnchunkRoom(b: Bytes, r: nat, r2: nat)
    requires Unchunk(b, r).Some? && r <= r2
    ensures Unchunk(b, r2) == Unchunk(b, r)
    decreases |b|
  {
    if b != [] { UnchunkRoom(b[1 + b[0]..], r - b[0], r2 - b[0]); }
  }

  lemma MxLong(d: Bytes, p: nat, e: nat, pref: nat, n: Name)
    requires RDataAt(d, p, e, Mx(pref, n))
    ensures e >= p + 3
  {
    assert NameEnd(d, p + 2).Some?;
  }

  /** Stored data is parsed as what was stored. */
  lemma AnyParseStored(d: Bytes, rr: RR, rd: RData, room: nat)
    requires rr.rdp + rr.rdlen <= |d| && RDataAt(d, rr.rdp, rr.rdp + rr.rdlen, rd)
    requires Parsed(rr.typ) && Suits(rr.typ, rd) && Fits(rd, room)
    ensures AnyParse(d, rr, room) == Some(rd)
  {
    match rd {
      case Raw(_) =>
      case Host(n) => ExpandStored(d, rr.rdp);
      case Mx(pref, n) => ExpandStored(d, rr.rdp + 2); MxLong(d, rr.rdp, rr.rdp + rr.rdlen, pref, n);
      case Txt(t) => UnchunkRoom(d[rr.rdp..rr.rdp + rr.rdlen], |t|, room);
    }
  }
}
