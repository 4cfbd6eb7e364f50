/** The lookup string: sources of host names, each with what to do on every outcome,
    written by the nsswitch reader (dns_nssconf_loadfile) and read back by
    dns_nssconf_next. */
module NssConf {
  import opened Options

  datatype Keyword =
    | INVALID | HOSTS | SUCCESS | NOTFOUND | UNAVAIL | TRYAGAIN | CONTINUE | RETURN | FILES | DNS | MDNS

  const ROOM: nat := 36   // the lookup buffer

  /** The words of one source: its name and its criteria, in pairs. */
  datatype Entry = Entry(source: Keyword, criteria: seq<(Keyword, Keyword)>)

  /** A source as the reader reports it. */
  datatype Source = Source(source: Keyword, success: Keyword, notfound: Keyword, unavail: Keyword, tryagain: Keyword)

  predicate IsSource(k: Keyword) { k in {FILES, DNS, MDNS} }

  predicate IsStatus(k: Keyword) { k in {SUCCESS, NOTFOUND, UNAVAIL, TRYAGAIN} }

  predicate IsAction(k: Keyword) { k in {CONTINUE, RETURN} }

  function K2C(k: Keyword): char {
    match k
    case SUCCESS => 'S'
    case NOTFOUND => 'N'
    case UNAVAIL => 'U'
    case TRYAGAIN => 'T'
    case CONTINUE => 'C'
    case RETURN => 'R'
    case FILES => 'f'
    case DNS => 'b'
    case MDNS => 'm'
    case _ => '?'
  }

  function C2K(c: char): Keyword {
    if c == 'S' then SUCCESS
    else if c == 'N' then NOTFOUND
    else if c == 'U' then UNAVAIL
    else if c == 'T' then TRYAGAIN
    else if c == 'C' then CONTINUE
    else if c == 'R' then RETURN
    else if c == 'f' || c == 'F' then FILES
    else if c == 'd' || c == 'D' || c == 'b' || c == 'B' then DNS
    else if c == 'm' || c == 'M' then MDNS
    else INVALID
  }

  lemma CodesRound(k: Keyword)
    ensures IsSource(k) || IsStatus(k) || IsAction(k) ==> C2K(K2C(k)) == k && K2C(k) != '\0'
  {
  }

  // ----- what is meant -----

  function Default(source: Keyword): Source { Source(source, RETURN, CONTINUE, CONTINUE, CONTINUE) }

  function With(s: Source, status: Keyword, action: Keyword): Source {
    match status
    case SUCCESS => s.(success := action)
    case NOTFOUND => s.(notfound := action)
    case UNAVAIL => s.(unavail := action)
    case TRYAGAIN => s.(tryagain := action)
    case _ => s
  }

  /** The action taken for a word that names none. */
  function ActionOf(status: Keyword, action: Keyword): Keyword {
    if IsAction(action) then action else if status == SUCCESS then RETURN else CONTINUE
  }

  /** The criteria applied in order; a later one for the same status wins. */
  function Applied(s: Source, cs: seq<(Keyword, Keyword)>): Source
    decreases |cs|
  {
    if cs == [] then s
    else Applied(if IsStatus(cs[0].0) then With(s, cs[0].0, ActionOf(cs[0].0, cs[0].1)) else s, cs[1..])
  }

  function Meaning(e: Entry): Source { Applied(Default(e.source), e.criteria) }

  /** The action for an outcome. */
  function ActionFor(s: Source, status: Keyword): Keyword {
    match status
    case SUCCESS => s.success
    case NOTFOUND => s.notfound
    case UNAVAIL => s.unavail
    case _ => s.tryagain
  }

  /** What is done on an outcome that no criterion names, and for a word that names no action. */
  function Usual(status: Keyword): Keyword { if status == SUCCESS then RETURN else CONTINUE }

  lemma {:induction false} AppliedKeeps(s: Source, cs: seq<(Keyword, Keyword)>, status: Keyword)
    requires IsStatus(status) && forall i :: 0 <= i < |cs| ==> cs[i].0 != status
    ensures ActionFor(Applied(s, cs), status) == ActionFor(s, status) && Applied(s, cs).source == s.source
    decreases |cs|
  {
    if cs != [] {
      assert cs[0].0 != status;
      var t := if IsStatus(cs[0].0) then With(s, cs[0].0, ActionOf(cs[0].0, cs[0].1)) else s;
      forall i | 0 <= i < |cs| - 1 ensures cs[1..][i].0 != status { assert cs[i + 1].0 != status; }
      AppliedKeeps(t, cs[1..], status);
    }
  }

  lemma {:induction false} AppliedSets(s: Source, cs: seq<(Keyword, Keyword)>, status: Keyword, k: nat)
    requires IsStatus(status) && k < |cs| && cs[k].0 == status && forall i :: k < i < |cs| ==> cs[i].0 != status
    ensures ActionFor(Applied(s, cs), status) == (if cs[k].1 in {CONTINUE, RETURN} then cs[k].1 else Usual(status))
    decreases k
  {
    var t := if IsStatus(cs[0].0) then With(s, cs[0].0, ActionOf(cs[0].0, cs[0].1)) else s;
    if k == 0 {
      forall i | 0 <= i < |cs| - 1 ensures cs[1..][i].0 != status { assert cs[i + 1].0 != status; }
      AppliedKeeps(t, cs[1..], status);
    } else {
      forall i | k - 1 < i < |cs| - 1 ensures cs[1..][i].0 != status { assert cs[i + 1].0 != status; }
      AppliedSets(t, cs[1..], status, k - 1);
    }
  }

  /** What a source means: on every outcome the action that the last criterion for it gives, and without
      one a success ends the search and everything else goes on to the next source. */
  lemma MeaningExact(e: Entry, status: Keyword)
    requires status in {SUCCESS, NOTFOUND, UNAVAIL, TRYAGAIN}
    ensures (forall i :: 0 <= i < |e.criteria| ==> e.criteria[i].0 != status) ==>
              ActionFor(Meaning(e), status) == if status == SUCCESS then RETURN else CONTINUE
    ensures forall k :: 0 <= k < |e.criteria| && e.criteria[k].0 == status
                        && (forall i :: k < i < |e.criteria| ==> e.criteria[i].0 != status) ==>
              ActionFor(Meaning(e), status) ==
              if e.criteria[k].1 in {CONTINUE, RETURN} then e.criteria[k].1
              else if status == SUCCESS then RETURN else CONTINUE
  {
    hide Applied;
    if forall i :: 0 <= i < |e.criteria| ==> e.criteria[i].0 != status {
      AppliedKeeps(Default(e.source), e.criteria, status);
    }
    forall k | 0 <= k < |e.criteria| && e.criteria[k].0 == status
               && (forall i :: k < i < |e.criteria| ==> e.criteria[i].0 != status)
      ensures ActionFor(Meaning(e), status) ==
              if e.criteria[k].1 in {CONTINUE, RETURN} then e.criteria[k].1
              else if status == SUCCESS then RETURN else CONTINUE
    {
      AppliedSets(Default(e.source), e.criteria, status, k);
    }
  }

  // ----- writing -----

  function Codes(cs: seq<(Keyword, Keyword)>): string {
    if cs == [] then []
    else (if IsStatus(cs[0].0) then [K2C(cs[0].0), K2C(ActionOf(cs[0].0, cs[0].1))] else []) + Codes(cs[1..])
  }

  lemma CodesStep(cs: seq<(Keyword, Keyword)>, i: nat)
    ensures i < |cs| && IsStatus(cs[i].0) ==>
              Codes(cs[i..]) == [K2C(cs[i].0), K2C(ActionOf(cs[i].0, cs[i].1))] + Codes(cs[i + 1..])
    ensures i < |cs| && !IsStatus(cs[i].0) ==> Codes(cs[i..]) == Codes(cs[i + 1..])
    ensures i == |cs| ==> Codes(cs[i..]) == []
  {
    if i < |cs| { assert cs[i..][1..] == cs[i + 1..]; }
  }

  /** The letters of the lookup string. */
  lemma CodesAre()
    ensures K2C(FILES) == 'f' && K2C(DNS) == 'b' && K2C(MDNS) == 'm'
    ensures K2C(SUCCESS) == 'S' && K2C(NOTFOUND) == 'N' && K2C(UNAVAIL) == 'U' && K2C(TRYAGAIN) == 'T'
    ensures K2C(CONTINUE) == 'C' && K2C(RETURN) == 'R'
  {
  }

  /** A source is dropped when it is unknown or its words may not fit any more. */
  predicate Keeps(e: Entry, used: nat) { IsSource(e.source) && used + 2 * |e.criteria| + 2 <= ROOM }

  function Written(e: Entry): string { [K2C(e.source)] + Codes(e.criteria) }

  function Encode(es: seq<Entry>, used: nat): string
    decreases |es|
  {
    if es == [] then []
    else if Keeps(es[0], used) then Written(es[0]) + Encode(es[1..], used + |Written(es[0])|)
    else Encode(es[1..], used)
  }

  function Kept(es: seq<Entry>, used: nat): seq<Entry>
    decreases |es|
  {
    if es == [] then []
    else if Keeps(es[0], used) then [es[0]] + Kept(es[1..], used + |Written(es[0])|)
    else Kept(es[1..], used)
  }

  // ----- reading -----

  /** The criteria from i on: the source as they leave it, and where they end. */
  function ScanPairs(s: string, i: nat, src: Source): (r: (Source, nat))
    ensures r.1 >= i && (i <= |s| ==> r.1 <= |s|)
    decreases |s| - i
  {
    if i + 1 < |s| && IsAction(C2K(s[i + 1])) && IsStatus(C2K(s[i]))
    then ScanPairs(s, i + 2, With(src, C2K(s[i]), C2K(s[i + 1])))
    else (src, i)
  }

  /** The next source from i on, and where it ends (nssconf_next). */
  function NextSource(s: string, i: nat): (r: Option<(Source, nat)>)
    ensures r.Some? ==> i < r.value.1 <= |s|
    decreases |s| - i
  {
    if i >= |s| then None
    else if IsSource(C2K(s[i])) then Some(ScanPairs(s, i + 1, Default(C2K(s[i]))))
    else NextSource(s, i + 1)
  }

  function DecodeAll(s: string, i: nat): seq<Source>
    decreases |s| - i
  {
    match NextSource(s, i)
    case None => []
    case Some(r) => [r.0] + DecodeAll(s, r.1)
  }

  // ----- the round trip -----

  lemma {:induction false} CodesSize(cs: seq<(Keyword, Keyword)>)
    ensures |Codes(cs)| <= 2 * |cs|
  {
    if cs != [] { CodesSize(cs[1..]); }
  }

  /** What may follow a source: nothing, or the next source. */
  predicate AtSource(s: string, i: nat) { i == |s| || (i < |s| && IsSource(C2K(s[i]))) }

  /** Reading the codes of criteria applies them, and stops at the next source: its
      character is no status, and what comes after it is no action. */
  lemma {:induction false} CodesRead(s: string, i: nat, cs: seq<(Keyword, Keyword)>, src: Source)
    requires i + |Codes(cs)| <= |s| && s[i..i + |Codes(cs)|] == Codes(cs) && AtSource(s, i + |Codes(cs)|)
    ensures ScanPairs(s, i, src) == (Applied(src, cs), i + |Codes(cs)|)
    decreases |cs|
  {
    if cs != [] {
      var status, action := cs[0].0, ActionOf(cs[0].0, cs[0].1);
      if IsStatus(status) {
        var w := s[i..i + |Codes(cs)|];
        assert s[i] == w[0] == K2C(status) && s[i + 1] == w[1] == K2C(action);
        CodesRound(status);
        CodesRound(action);
        assert s[i + 2..i + |Codes(cs)|] == w[2..] == Codes(cs[1..]);
        CodesRead(s, i + 2, cs[1..], With(src, status, action));
      } else {
        assert Codes(cs) == Codes(cs[1..]);
        CodesRead(s, i, cs[1..], src);
      }
    }
  }

  lemma {:induction false} EncodeStarts(es: seq<Entry>, used: nat)
    ensures Encode(es, used) != [] ==> IsSource(C2K(Encode(es, used)[0]))
    decreases |es|
  {
    if es != [] {
      if Keeps(es[0], used) { CodesRound(es[0].source); } else { EncodeStarts(es[1..], used); }
    }
  }

  function Meanings(es: seq<Entry>): (r: seq<Source>)
    ensures |r| == |es|
  {
    if es == [] then [] else [Meaning(es[0])] + Meanings(es[1..])
  }

  lemma EncodeStep(es: seq<Entry>, used: nat)
    requires es != []
    ensures var e, rest := es[0], es[1..];
            if Keeps(e, used) then
              && IsSource(e.source) && Encode(es, used) == Written(e) + Encode(rest, used + |Written(e)|)
              && Meanings(Kept(es, used)) == [Meaning(e)] + Meanings(Kept(rest, used + |Written(e)|))
            else Encode(es, used) == Encode(rest, used) && Kept(es, used) == Kept(rest, used)
  {
    hide Written, Meaning;
  }

  lemma DecodeStep(s: string, i: nat, m: Source, j: nat)
    ensures NextSource(s, i) == Some((m, j)) ==> DecodeAll(s, i) == [m] + DecodeAll(s, j)
    ensures i == |s| ==> DecodeAll(s, i) == []
  {
    hide ScanPairs;
  }

  lemma NoEntries(used: nat)
    ensures Encode([], used) == [] && Meanings(Kept([], used)) == []
  {
  }

  lemma {:induction false} DecodeFrom(s: string, i: nat, es: seq<Entry>, used: nat)
    requires i <= |s| && s[i..] == Encode(es, used)
    ensures DecodeAll(s, i) == Meanings(Kept(es, used))
    decreases |es|
  {
    hide *;
    if es == [] {
      NoEntries(used);
      DecodeStep(s, i, Default(FILES), i);
    } else {
      EncodeStep(es, used);
      var e, rest := es[0], es[1..];
      if Keeps(e, used) {
        var w := |Written(e)|;
        EncodeStarts(rest, used + w);
        SourceRead(s, i, e, Encode(rest, used + w));
        assert s[i + w..] == s[i..][w..] == Encode(rest, used + w);
        DecodeStep(s, i, Meaning(e), i + w);
        DecodeFrom(s, i + w, rest, used + w);
      } else {
        DecodeFrom(s, i, rest, used);
      }
    }
  }

  lemma Within(s: string, i: nat, a: nat, b: nat)
    requires a <= b && i + b <= |s|
    ensures s[i..][a..b] == s[i + a..i + b]
  {
  }

  lemma WrittenParts(e: Entry, rest: string)
    ensures var w, t := |Written(e)|, Written(e) + rest;
            && w == 1 + |Codes(e.criteria)| && t[0] == K2C(e.source) && t[1..w] == Codes(e.criteria)
            && (rest != [] ==> t[w] == rest[0])
  {
    hide Codes, K2C;
  }

  lemma Sources(s: string, i: nat, k: Keyword, r: (Source, nat))
    requires i < |s| && s[i] == K2C(k) && IsSource(k) && ScanPairs(s, i + 1, Default(k)) == r
    ensures NextSource(s, i) == Some(r)
  {
    CodesRound(k);
    hide ScanPairs;
  }

  lemma SourceRead(s: string, i: nat, e: Entry, rest: string)
    requires i <= |s| && s[i..] == Written(e) + rest && IsSource(e.source) && (rest != [] ==> IsSource(C2K(rest[0])))
    ensures NextSource(s, i) == Some((Meaning(e), i + |Written(e)|)) && i + |Written(e)| <= |s|
  {
    hide Written, Codes, K2C, C2K, NextSource, ScanPairs, IsSource;
    var w := |Written(e)|;
    WrittenParts(e, rest);
    assert |s| == i + w + |rest|;
    Within(s, i, 1, w);
    assert s[i] == s[i..][0];
    assert rest != [] ==> s[i + w] == s[i..][w];
    CodesRead(s, i + 1, e.criteria, Default(e.source));
    Sources(s, i, e.source, (Meaning(e), i + w));
  }

  /** Decoding what was written for any list of sources returns the kept ones in order,
      each with its meaning. */
  lemma LookupRoundTrip(es: seq<Entry>)
    ensures DecodeAll(Encode(es, 0), 0) == Meanings(Kept(es, 0))
  {
    var s := Encode(es, 0);
    assert s[0..] == s;
    DecodeFrom(s, 0, es, 0);
  }

  /** The octets that a list of sources takes, at most: one each, and two for each criterion. */
  function Weight(es: seq<Entry>): nat { if es == [] then 0 else 1 + 2 * |es[0].criteria| + Weight(es[1..]) }

  lemma {:induction false} KeptFrom(es: seq<Entry>, used: nat)
    requires used + Weight(es) <= 35 && forall e :: e in es ==> e.source in {FILES, DNS, MDNS}
    ensures Kept(es, used) == es
    decreases |es|
  {
    if es != [] {
      CodesSize(es[0].criteria);
      KeptFrom(es[1..], used + |Written(es[0])|);
    }
  }

  /** Sources that are all known and take no more than 35 octets come back complete, in order, each with its meaning. */
  lemma AllKept(es: seq<Entry>)
    requires Weight(es) <= 35 && forall e :: e in es ==> e.source in {FILES, DNS, MDNS}
    ensures DecodeAll(Encode(es, 0), 0) == Meanings(es)
  {
    KeptFrom(es, 0);
    LookupRoundTrip(es);
  }

  /** The string always leaves room for its NUL. */
  lemma {:induction false} EncodeFits(es: seq<Entry>, used: nat)
    requires used < 36
    ensures used + |Encode(es, used)| < 36
    decreases |es|
  {
    if es != [] {
      if Keeps(es[0], used) {
        CodesSize(es[0].criteria);
        EncodeFits(es[1..], used + |Written(es[0])|);
      } else {
        EncodeFits(es[1..], used);
      }
    }
  }

  // ----- in place -----

  /** The lookup buffer of the configuration. */
  class Lookup {
    const data: array<char>

    ghost predicate Valid() { data.Length == ROOM }

    constructor ()
      ensures Valid() && fresh(data)
    {
      data := new char[ROOM](_ => '\0');
    }

    /** The buffer holds the string s. */
    ghost predicate Holds(s: string)
      reads data
    {
      Valid() && |s| < ROOM && data[..|s|] == s && data[|s|] == '\0' && '\0' !in s
    }

    method PutPair(p: nat, a: char, b: char)
      requires Valid() && p + 2 <= ROOM
      modifies data
      ensures data[..p + 2] == old(data[..p]) + [a, b]
    {
      data[p], data[p + 1] := a, b;
    }

    /** Writes one source at lp. */
    method PutSource(e: Entry, lp: nat, ghost s: string) returns (np: nat)
      requires Valid() && Keeps(e, lp) && |s| == lp && data[..lp] == s
      modifies data
      ensures np == lp + |Written(e)| < ROOM && data[..np] == s + Written(e)
    {
      CodesSize(e.criteria);
      data[lp] := K2C(e.source);
      np := lp + 1;
      var i: nat := 0;
      assert e.criteria[0..] == e.criteria;
      ghost var done := s + [K2C(e.source)];
      assert lp + 2 * |e.criteria| + 2 <= ROOM;
      hide K2C, Codes, Keeps, ActionOf;
      while i < |e.criteria|
        invariant i <= |e.criteria| && np <= lp + 1 + 2 * i && data[..np] == done
        invariant done + Codes(e.criteria[i..]) == s + Written(e)
      {
        var status, action := e.criteria[i].0, e.criteria[i].1;
        CodesStep(e.criteria, i);
        if IsStatus(status) {
          action := ActionOf(status, action);
          PutPair(np, K2C(status), K2C(action));
          done := done + [K2C(status), K2C(action)];
          np := np + 2;
        }
        i := i + 1;
      }
      CodesStep(e.criteria, i);
    }

    /** Writes the sources of one line. */
    method Load(es: seq<Entry>)
      requires Valid()
      modifies data
      ensures Holds(Encode(es, 0))
    {
      EncodeFits(es, 0);
      NoNul(es, 0);
      var lp, i := 0, 0;
      ghost var done := "";
      assert es[0..] == es;
      data[lp] := '\0';
      hide Encode, Written, Keeps;
      while i < |es|
        invariant i <= |es| && lp == |done| < ROOM && data[..lp] == done && data[lp] == '\0'
        invariant done + Encode(es[i..], lp) == Encode(es, 0)
      {
        LoadStep(es, i, lp, done);
        if ROOM - lp >= 2 * |es[i].criteria| + 2 && IsSource(es[i].source) {
          ghost var s := done;
          done := s + Written(es[i]);
          lp := PutSource(es[i], lp, s);
        }
        data[lp] := '\0';
        i := i + 1;
      }
      LoadStep(es, i, lp, done);
    }

    /** The character at i, or 0 past the end of the string. */
    method Peek(i: nat, ghost s: string) returns (c: char)
      requires Holds(s) && i <= |s|
      ensures c == (if i < |s| then s[i] else '\0') && (c == '\0' <==> i == |s|)
    {
      c := if i < data.Length then data[i] else '\0';
      assert i < |s| ==> data[i] == data[..|s|][i] && s[i] in s;
    }

    /** The next source from i on (nssconf_next). */
    method Next(i0: nat, ghost s: string) returns (r: Option<(Source, nat)>)
      requires Holds(s) && i0 <= |s|
      ensures r == NextSource(s, i0)
    {
      hide C2K, With, Holds;
      var i := i0;
      while true
        invariant i <= |s| && NextSource(s, i) == NextSource(s, i0)
        decreases |s| - i
      {
        var c := Peek(i, s);
        if c == '\0' { return None; }
        i := i + 1;
        if IsSource(C2K(c)) {
          var src := Default(C2K(c));
          ghost var first, j := src, i;
          while true
            invariant i <= |s| && ScanPairs(s, i, src) == ScanPairs(s, j, first)
            decreases |s| - i
          {
            var status := Peek(i, s);
            if status == '\0' { return Some((src, i)); }
            var action := Peek(i + 1, s);
            NulIsNone();
            if action == '\0' || !IsAction(C2K(action)) || !IsStatus(C2K(status)) { return Some((src, i)); }
            src := With(src, C2K(status), C2K(action));
            i := i + 2;
          }
        }
      }
    }
  }

  lemma NulIsNone()
    ensures C2K('\0') == INVALID
  {
  }

  lemma LoadStep(es: seq<Entry>, i: nat, lp: nat, done: string)
    requires i <= |es|
    ensures i == |es| ==> done + Encode(es[i..], lp) == done
    ensures i < |es| ==> (Keeps(es[i], lp) <==> ROOM - lp >= 2 * |es[i].criteria| + 2 && IsSource(es[i].source))
    ensures i < |es| ==>
              var w := Written(es[i]);
              if Keeps(es[i], lp) then done + Encode(es[i..], lp) == done + w + Encode(es[i + 1..], lp + |w|)
              else Encode(es[i..], lp) == Encode(es[i + 1..], lp)
  {
    if i < |es| {
      assert es[i..][1..] == es[i + 1..];
      hide Written;
    }
  }

  lemma {:induction false} CodesNul(cs: seq<(Keyword, Keyword)>)
    ensures '\0' !in Codes(cs)
  {
    if cs != [] {
      CodesRound(cs[0].0);
      CodesRound(ActionOf(cs[0].0, cs[0].1));
      CodesNul(cs[1..]);
    }
  }

  lemma {:induction false} NoNul(es: seq<Entry>, used: nat)
    ensures '\0' !in Encode(es, used)
    decreases |es|
  {
    if es != [] {
      if Keeps(es[0], used) {
        CodesRound(es[0].source);
        CodesNul(es[0].criteria);
        NoNul(es[1..], used + |Written(es[0])|);
      } else {
        NoNul(es[1..], used);
      }
    }
  }
}
