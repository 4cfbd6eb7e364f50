/** Copying a record out of a packet and comparing records of two packets, each read back
    from its own bytes (dns_rr_copy, dns_rr_cmp, dns_any_cmp). */
module Comparing {
  import opened Options
  import opened Names
  import opened Compress
  import opened Letters
  import opened Records
  import opened Pushing
  import opened Layout
  import opened RecordData
  import opened Enumerate

  const ALL_SECTIONS: nat := QD + AN + NS + AR

  // ----- reading -----

  /** The data of a record; types outside this model give none. */
  function Data(d: Bytes, rr: RR, room: nat): Option<RData> {
    if rr.rdp + rr.rdlen <= |d| && Parsed(rr.typ) then AnyParse(d, rr, room) else None
  }

  /** The record as it is handed to a push, unless its name or its data is illegal. */
  function CopyOf(d: Bytes, rr: RR, room: nat): Option<Rec> {
    match HostAt(d, rr.pos)
    case None => None
    case Some(n) =>
      if rr.section == QD then Some(Rec(QD, n, rr.typ, rr.cls, rr.ttl, Raw([])))
      else
        match Data(d, rr, room)
        case None => None
        case Some(rd) => Some(Rec(rr.section, n, rr.typ, rr.cls, rr.ttl, rd))
  }

  /** The records of the given sections and type, as dns_rr_foreach goes through them. */
  function Each(d: Bytes, m: Memo, mask: nat, typ: nat): seq<RR>
    requires HEADER <= |d|
  {
    Filtered(Listing(d, m, HEADER), EVERYTHING.(section := mask, typ := typ), ByPacket, -1)
  }

  /** It is what the iterator selects in packet order. */
  lemma EachSelected(d: Bytes, m: Memo, mask: nat, typ: nat)
    requires HEADER <= |d|
    ensures Each(d, m, mask, typ)
            == Selected(Listing(d, m, HEADER), EVERYTHING.(section := mask, typ := typ), ByPacket, -1)
  {
    ListingAscends(d, m, HEADER);
    SelectedInOrder(Listing(d, m, HEADER), EVERYTHING.(section := mask, typ := typ), ByPacket, -1);
  }

  lemma {:induction false} FilteredHas(l: seq<RR>, f: Filter, rr: RR)
    ensures rr in Filtered(l, f, ByPacket, -1) <==> rr in l && Matches(f, rr)
  {
    hide Matches;
    if l != [] { FilteredHas(l[1..], f, rr); }
  }

  lemma EachHas(d: Bytes, m: Memo, mask: nat, typ: nat, rr: RR)
    requires HEADER <= |d|
    ensures rr in Each(d, m, mask, typ) <==>
            rr in Listing(d, m, HEADER) && (mask != 0 ==> HasBit(mask, rr.section)) &&
                (typ != 0 && typ != ANY ==> rr.typ == typ)
  {
    FilteredHas(Listing(d, m, HEADER), EVERYTHING.(section := mask, typ := typ), rr);
    hide HasBit;
  }

  // ----- names this model can push -----

  predicate GoodHost(d: Bytes, p: nat) {
    match Expand(d, p)
    case Labels(n) => GoodName(n)
    case Illegal => true
    case Unfinished => false
  }

  /** Every name the record holds is read to an end and has labels without dots or NULs,
      and its data is of a type that is modelled. */
  predicate Legible(d: Bytes, rr: RR) {
    && GoodHost(d, rr.pos)
    && (rr.section != QD ==>
          && Parsed(rr.typ)
          && (rr.typ in {2, 5, 12} ==> GoodHost(d, rr.rdp))
          && (rr.typ == MX && rr.rdlen >= 3 ==> GoodHost(d, rr.rdp + 2)))
  }

  predicate InRange(rr: RR) { rr.typ < 0x1_0000 && rr.cls < 0x1_0000 && rr.ttl < 0x1_0000_0000 }

  lemma {:induction false} ListingInRange(d: Bytes, m: Memo, rp: nat)
    requires HEADER <= |d|
    ensures forall rr :: rr in Listing(d, m, rp) ==> InRange(rr)
    decreases |d| - rp
  {
    hide Next, Section, Skip, QEnd;
    if rp < |d| { ListingInRange(d, m, Next(d, rp)); }
  }

  lemma HostGood(d: Bytes, p: nat)
    requires GoodHost(d, p) && HostAt(d, p).Some?
    ensures GoodName(HostAt(d, p).value)
  {
    hide Expand, GoodName;
  }

  lemma DataGood(d: Bytes, rr: RR, room: nat)
    requires rr.section != QD && Legible(d, rr) && Data(d, rr, room).Some?
    ensures Suits(rr.typ, Data(d, rr, room).value) && GoodRData(Data(d, rr, room).value)
  {
    hide Expand, HostAt, GoodHost, Unchunk, GoodName;
    if rr.typ in {2, 5, 12} { HostGood(d, rr.rdp); }
    if rr.typ == MX && rr.rdlen >= 3 { HostGood(d, rr.rdp + 2); }
  }

  /** A legible record is copied as one that can be pushed. */
  lemma CopyGood(d: Bytes, rr: RR, room: nat)
    requires Legible(d, rr) && InRange(rr) && CopyOf(d, rr, room).Some?
    ensures GoodRec(CopyOf(d, rr, room).value) && CopyOf(d, rr, room).value.section == rr.section
  {
    HostGood(d, rr.pos);
    if rr.section != QD { DataGood(d, rr, room); }
    hide HostAt, Data, GoodName, Suits, GoodRData;
  }

  // ----- comparing -----

  /** strcasecmp on the texts of two names that fit into a host buffer. */
  predicate SameHost(m: Name, n: Name) {
    |Text(m)| <= MAX_NAME && |Text(n)| <= MAX_NAME && CaseEqual(Text(m), Text(n))
  }

  /** Equal data; text, and data of types without a comparison of their own, never is. */
  predicate SameData(typ: nat, a: RData, b: RData) {
    match (a, b)
    case (Raw(x), Raw(y)) => typ in {A, AAAA} && x == y
    case (Host(m), Host(n)) => SameHost(m, n)
    case (Mx(x, m), Mx(y, n)) => x == y && SameHost(m, n)
    case _ => false
  }

  /** The record a of the packet d compares equal to the record b of the packet e. */
  predicate Equal(d: Bytes, a: RR, e: Bytes, b: RR, room: nat) {
    && a.typ == b.typ && a.cls == b.cls
    && HostAt(d, a.pos).Some? && HostAt(e, b.pos).Some?
    && CaseEqual(Text(HostAt(d, a.pos).value), Text(HostAt(e, b.pos).value))
    && if a.section == QD || b.section == QD then a.section == b.section
       else
         && Data(d, a, room).Some? && Data(e, b, room).Some?
         && SameData(a.typ, Data(d, a, room).value, Data(e, b, room).value)
  }

  /** The same comparison, of records. */
  predicate Same(r: Rec, h: Rec) {
    && r.typ == h.typ && r.cls == h.cls && SameHost(r.name, h.name)
    && if r.section == QD || h.section == QD then r.section == h.section else SameData(r.typ, r.rdata, h.rdata)
  }

  /** b reports the record h, which the packet e holds. */
  ghost predicate Reports(e: Bytes, b: RR, h: Rec) {
    && Expand(e, b.pos) == Labels(h.name) && b.typ == h.typ && b.cls == h.cls && b.section == h.section
    && (h.section != QD ==>
          b.rdp + b.rdlen <= |e| && RDataAt(e, b.rdp, b.rdp + b.rdlen, h.rdata) && Suits(h.typ, h.rdata))
  }

  lemma HostReported(e: Bytes, b: RR, n: Name, x: RData, room: nat)
    requires b.rdp + b.rdlen <= |e| && RDataAt(e, b.rdp, b.rdp + b.rdlen, Host(n)) && Suits(b.typ, Host(n))
    ensures Data(e, b, room).Some? && SameData(b.typ, x, Data(e, b, room).value) <==> SameData(b.typ, x, Host(n))
  {
    ExpandStored(e, b.rdp);
    hide Expand, CaseEqual, Unchunk, Stored, NameEnd, Text;
  }

  lemma MxReported(e: Bytes, b: RR, pref: nat, n: Name, x: RData, room: nat)
    requires b.rdp + b.rdlen <= |e| && RDataAt(e, b.rdp, b.rdp + b.rdlen, Mx(pref, n)) && Suits(b.typ, Mx(pref, n))
    ensures Data(e, b, room).Some? && SameData(b.typ, x, Data(e, b, room).value) <==> SameData(b.typ, x, Mx(pref, n))
  {
    ExpandStored(e, b.rdp + 2);
    MxLong(e, b.rdp, b.rdp + b.rdlen, pref, n);
    hide Expand, CaseEqual, Unchunk, Stored, NameEnd, Text, U16At;
  }

  lemma DataReported(e: Bytes, b: RR, h: RData, x: RData, room: nat)
    requires b.rdp + b.rdlen <= |e| && RDataAt(e, b.rdp, b.rdp + b.rdlen, h) && Suits(b.typ, h)
    ensures Data(e, b, room).Some? && SameData(b.typ, x, Data(e, b, room).value) <==> SameData(b.typ, x, h)
  {
    hide Expand, CaseEqual, Unchunk, Stored, NameEnd, Text, U16At;
    match h {
      case Host(n) => HostReported(e, b, n, x, room);
      case Mx(pref, n) => MxReported(e, b, pref, n, x, room);
      case _ =>
    }
  }

  /** Reading both records and comparing them is comparing the records. */
  lemma EqualIsSame(d: Bytes, a: RR, e: Bytes, b: RR, h: Rec, room: nat)
    requires CopyOf(d, a, room).Some? && Reports(e, b, h)
    ensures Equal(d, a, e, b, room) <==> Same(CopyOf(d, a, room).value, h)
  {
    var r := CopyOf(d, a, room).value;
    hide Expand, CaseEqual, Data, SameData, RDataAt, Suits;
    if a.section != QD && h.section != QD && a.typ == h.typ { DataReported(e, b, h.rdata, r.rdata, room); }
  }

  /** A record that cannot be copied equals none. */
  lemma IllegalDiffers(d: Bytes, a: RR, e: Bytes, b: RR, room: nat)
    requires CopyOf(d, a, room).None?
    ensures !Equal(d, a, e, b, room)
  {
    hide HostAt, Data, CaseEqual, SameData;
  }

  // ----- comparing, on the bytes -----

  /** Names of at most 255 bytes are read in both places, and their texts are the same. */
  predicate NamesAgree(d: Bytes, p: nat, e: Bytes, q: nat) {
    HostAt(d, p).Some? && HostAt(e, q).Some? && SameString(Text(HostAt(d, p).value), Text(HostAt(e, q).value))
  }

  /** The data of both records, of one type, agrees: the four or sixteen bytes of an address, the two bytes of a
      preference and the name of a mail exchange, the name of a server, an alias or a pointer. No other data does. */
  predicate DataAgrees(d: Bytes, a: RR, e: Bytes, b: RR) {
    && a.rdp + a.rdlen <= |d| && b.rdp + b.rdlen <= |e|
    && match a.typ
       case 1 => a.rdlen == b.rdlen == 4 && d[a.rdp..a.rdp + 4] == e[b.rdp..b.rdp + 4]
       case 28 => a.rdlen == b.rdlen == 16 && d[a.rdp..a.rdp + 16] == e[b.rdp..b.rdp + 16]
       case 15 =>
         && a.rdlen >= 3 && b.rdlen >= 3 && d[a.rdp] == e[b.rdp] && d[a.rdp + 1] == e[b.rdp + 1]
         && NamesAgree(d, a.rdp + 2, e, b.rdp + 2)
       case _ => a.typ in {2, 5, 12} && NamesAgree(d, a.rdp, e, b.rdp)
  }

  predicate Agrees(d: Bytes, a: RR, e: Bytes, b: RR) {
    && a.typ == b.typ && a.cls == b.cls && NamesAgree(d, a.pos, e, b.pos)
    && (a.section == 1 <==> b.section == 1) && (a.section != 1 ==> DataAgrees(d, a, e, b))
  }

  lemma HostsAgree(d: Bytes, p: nat, e: Bytes, q: nat)
    ensures NamesAgree(d, p, e, q) <==>
            HostAt(d, p).Some? && HostAt(e, q).Some? && SameHost(HostAt(d, p).value, HostAt(e, q).value)
  {
    if HostAt(d, p).Some? && HostAt(e, q).Some? {
      SameStringExact(Text(HostAt(d, p).value), Text(HostAt(e, q).value));
    }
    hide Expand, SameString, CaseEqual, Text;
  }

  lemma PrefAgrees(d: Bytes, p: nat, e: Bytes, q: nat)
    requires p + 2 <= |d| && q + 2 <= |e|
    ensures U16At(d, p) == U16At(e, q) <==> d[p] == e[q] && d[p + 1] == e[q + 1]
  {
  }

  lemma DataOf(d: Bytes, rr: RR, room: nat)
    ensures var x, inside, p := Data(d, rr, room), rr.rdp + rr.rdlen <= |d|, rr.rdp;
            && (rr.typ in {1, 28} ==>
                  x == if inside && rr.rdlen == (if rr.typ == 1 then 4 else 16) then Some(Raw(d[p..p + rr.rdlen]))
                      else None)
            && (rr.typ == 15 ==>
                  x == if inside && rr.rdlen >= 3 && HostAt(d, p + 2).Some?
                       then Some(Mx(U16At(d, p), HostAt(d, p + 2).value)) else None)
            && (rr.typ in {2, 5, 12} ==>
                  x == if inside && HostAt(d, p).Some? then Some(Host(HostAt(d, p).value)) else None)
            && (rr.typ !in {1, 28, 15, 2, 5, 12} && x.Some? ==> x.value.Raw? || x.value.Txt?)
  {
    hide HostAt, Unchunk, U16At;
  }

  /** Both have data, and it is the same. */
  predicate BothSame(d: Bytes, a: RR, e: Bytes, b: RR, room: nat) {
    Data(d, a, room).Some? && Data(e, b, room).Some? && SameData(a.typ, Data(d, a, room).value, Data(e, b, room).value)
  }

  lemma AddressExact(d: Bytes, a: RR, e: Bytes, b: RR, room: nat)
    requires a.typ == b.typ && a.typ in {1, 28}
    ensures BothSame(d, a, e, b, room) <==> DataAgrees(d, a, e, b)
  {
    DataOf(d, a, room);
    DataOf(e, b, room);
    hide Data, NamesAgree, SameHost;
  }

  lemma ExchangeOf(d: Bytes, rr: RR, room: nat)
    requires rr.typ == 15
    ensures var x, held := Data(d, rr, room), rr.rdp + rr.rdlen <= |d| && rr.rdlen >= 3 && HostAt(d, rr.rdp + 2).Some?;
            (held ==> x == Some(Mx(U16At(d, rr.rdp), HostAt(d, rr.rdp + 2).value))) && (!held ==> x == None)
  {
    DataOf(d, rr, room);
    hide Data, HostAt, U16At;
  }

  lemma BothOf(d: Bytes, a: RR, e: Bytes, b: RR, room: nat, x: Option<RData>, y: Option<RData>)
    requires x == Data(d, a, room) && y == Data(e, b, room)
    ensures BothSame(d, a, e, b, room) <==> x.Some? && y.Some? && SameData(a.typ, x.value, y.value)
  {
    hide Data, SameData;
  }

  lemma SameMx(p: nat, m: Name, q: nat, n: Name)
    ensures SameData(15, Mx(p, m), Mx(q, n)) <==> p == q && SameHost(m, n)
  {
    hide SameHost;
  }

  lemma AgreesMx(d: Bytes, a: RR, e: Bytes, b: RR)
    requires a.typ == b.typ == 15
    ensures DataAgrees(d, a, e, b) <==>
            && a.rdp + a.rdlen <= |d| && b.rdp + b.rdlen <= |e| && a.rdlen >= 3 && b.rdlen >= 3
            && d[a.rdp] == e[b.rdp] && d[a.rdp + 1] == e[b.rdp + 1] && NamesAgree(d, a.rdp + 2, e, b.rdp + 2)
  {
    hide NamesAgree;
  }

  lemma ExchangeExact(d: Bytes, a: RR, e: Bytes, b: RR, room: nat)
    requires a.typ == b.typ == 15
    ensures BothSame(d, a, e, b, room) <==> DataAgrees(d, a, e, b)
  {
    hide *;
    ExchangeOf(d, a, room);
    ExchangeOf(e, b, room);
    HostsAgree(d, a.rdp + 2, e, b.rdp + 2);
    AgreesMx(d, a, e, b);
    BothOf(d, a, e, b, room, Data(d, a, room), Data(e, b, room));
    if Data(d, a, room).Some? && Data(e, b, room).Some? {
      PrefAgrees(d, a.rdp, e, b.rdp);
      SameMx(U16At(d, a.rdp), HostAt(d, a.rdp + 2).value, U16At(e, b.rdp), HostAt(e, b.rdp + 2).value);
    }
  }

  lemma ServerExact(d: Bytes, a: RR, e: Bytes, b: RR, room: nat)
    requires a.typ == b.typ && a.typ in {2, 5, 12}
    ensures BothSame(d, a, e, b, room) <==> DataAgrees(d, a, e, b)
  {
    DataOf(d, a, room);
    DataOf(e, b, room);
    HostsAgree(d, a.rdp, e, b.rdp);
    hide Data, HostAt, NamesAgree, SameHost, U16At;
  }

  lemma OtherExact(d: Bytes, a: RR, e: Bytes, b: RR, room: nat)
    requires a.typ == b.typ && a.typ !in {1, 28, 15, 2, 5, 12}
    ensures !BothSame(d, a, e, b, room) && !DataAgrees(d, a, e, b)
  {
    DataOf(d, a, room);
    DataOf(e, b, room);
    hide Data, NamesAgree, SameHost;
  }

  lemma DataExact(d: Bytes, a: RR, e: Bytes, b: RR, room: nat)
    requires a.typ == b.typ
    ensures BothSame(d, a, e, b, room) <==> DataAgrees(d, a, e, b)
  {
    hide *;
    if a.typ in {1, 28} {
      AddressExact(d, a, e, b, room);
    } else if a.typ == 15 {
      ExchangeExact(d, a, e, b, room);
    } else if a.typ in {2, 5, 12} {
      ServerExact(d, a, e, b, room);
    } else {
      OtherExact(d, a, e, b, room);
    }
  }

  /** Two records, each in its packet, compare equal if and only if they agree. */
  lemma EqualExact(d: Bytes, a: RR, e: Bytes, b: RR, room: nat)
    ensures Equal(d, a, e, b, room) <==> Agrees(d, a, e, b)
  {
    HostsAgree(d, a.pos, e, b.pos);
    HostsFit(d, a.pos);
    HostsFit(e, b.pos);
    if a.typ == b.typ { DataExact(d, a, e, b, room); }
    hide HostAt, NamesAgree, CaseEqual, Data, SameData, DataAgrees, Text;
  }

  lemma HostsFit(d: Bytes, p: nat)
    ensures HostAt(d, p).Some? ==> |Text(HostAt(d, p).value)| <= MAX_NAME
  {
    hide Expand, Text;
  }
}
