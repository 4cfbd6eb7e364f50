/** The resumable generator of search candidates (dns_resconf_search): all it
    remembers between calls is one packed word. */
module Search {

  const SEARCHES: nat := 4
  const DOT := '.'

  // Where a call goes on, as the distance in lines that the saved word holds.
  const ENTRY: nat := 0
  const AFTER_FQDN: nat := 5
  const AFTER_FIRST: nat := 13
  const AFTER_SUFFIX: nat := 26
  const AFTER_LAST: nat := 31
  const LEFT: nat := 34

  datatype Conf = Conf(search: seq<string>, ndots: nat)

  predicate Anchored(q: string) { |q| > 0 && q[|q| - 1] == DOT }

  function Anchor(q: string): string { if q == [] || Anchored(q) then q else q + [DOT] }

  function Ndots(q: string): (n: nat)
    ensures n <= |q|
  {
    if q == [] then 0 else (if q[0] == DOT then 1 else 0) + Ndots(q[1..])
  }

  method CountDots(q: string) returns (n: nat)
    ensures n == Ndots(q)
  {
    n := 0;
    var p := 0;
    while p < |q|
      invariant p <= |q| && n + Ndots(q[p..]) == Ndots(q)
    {
      assert q[p..][1..] == q[p + 1..];
      if q[p] == DOT { n := n + 1; }
      p := p + 1;
    }
  }

  // ----- the candidates -----

  function Joined(q: string, suffix: string): string {
    q + [DOT] + suffix + (if Anchored(suffix) then [] else [DOT])
  }

  /** One candidate for each search suffix from i on, up to the first empty one. */
  function Suffixed(c: Conf, q: string, i: nat): seq<string>
    decreases |c.search| - i
  {
    if i >= |c.search| || i >= SEARCHES || c.search[i] == [] then []
    else [Joined(q, c.search[i])] + Suffixed(c, q, i + 1)
  }

  function Last(c: Conf, q: string): seq<string> { if Ndots(q) < c.ndots then [Anchor(q)] else [] }

  /** What is tried for q: an anchored name alone; otherwise the bare name before the
      suffixes when it has enough dots, and after them when it has not. */
  function Candidates(c: Conf, q: string): seq<string> {
    if Anchored(q) then [Anchor(q)]
    else (if Ndots(q) >= c.ndots then [Anchor(q)] else []) + Suffixed(c, q, 0) + Last(c, q)
  }

  lemma {:induction false} NdotsExact(q: string)
    ensures Ndots(q) == multiset(q)['.']
  {
    if q != [] {
      assert q == [q[0]] + q[1..];
      NdotsExact(q[1..]);
    }
  }

  /** q under a suffix, and with a dot at the end. */
  function Under(q: string, suffix: string): string {
    if suffix != [] && suffix[|suffix| - 1] == '.' then q + "." + suffix else q + "." + suffix + "."
  }

  lemma {:induction false} SuffixedExact(c: Conf, q: string, i: nat, n: nat)
    requires i <= n <= |c.search| && n <= 4 && (n == 4 || n == |c.search| || c.search[n] == [])
    requires forall k :: i <= k < n ==> c.search[k] != []
    ensures |Suffixed(c, q, i)| == n - i
    ensures forall k :: i <= k < n ==> Suffixed(c, q, i)[k - i] == Under(q, c.search[k])
    decreases n - i
  {
    hide Joined, Under;
    if i < n {
      SuffixedExact(c, q, i + 1, n);
      UnderIs(q, c.search[i]);
      assert Suffixed(c, q, i) == [Joined(q, c.search[i])] + Suffixed(c, q, i + 1);
    }
  }

  lemma UnderIs(q: string, suffix: string)
    ensures Joined(q, suffix) == Under(q, suffix)
  {
    assert q + "." + suffix + [] == q + "." + suffix;
  }

  /** The candidates, one by one, n being the number of suffixes before the first empty one, at most four: an
      anchored name alone; a name with as many dots as configured, or more, first as it stands and then under every
      suffix; any other under every suffix first and then as it stands. */
  lemma CandidatesExact(c: Conf, q: string, n: nat)
    requires q != [] && n <= |c.search| && n <= 4 && (n == 4 || n == |c.search| || c.search[n] == [])
    requires forall k :: 0 <= k < n ==> c.search[k] != []
    ensures var l, dots := Candidates(c, q), multiset(q)['.'];
            if q[|q| - 1] == '.' then l == [q]
            else
              && |l| == n + 1
              && (dots >= c.ndots ==> l[0] == q + "." && forall k :: 0 <= k < n ==> l[k + 1] == Under(q, c.search[k]))
              && (dots < c.ndots ==> l[n] == q + "." && forall k :: 0 <= k < n ==> l[k] == Under(q, c.search[k]))
  {
    NdotsExact(q);
    SuffixedExact(c, q, 0, n);
    hide Suffixed, Under, Ndots;
  }

  // ----- the packed word -----

  function Pack(pc: nat, srchi: nat, ndots: nat): nat { pc % 256 + srchi % 256 * 256 + ndots % 256 * 65536 }

  lemma Unpacked(pc: nat, srchi: nat, ndots: nat)
    requires pc < 256 && srchi < 256 && ndots < 256
    ensures var w := Pack(pc, srchi, ndots); w % 256 == pc && w / 256 % 256 == srchi && w / 65536 % 256 == ndots
  {
    PackIs(pc, srchi, ndots);
    var w := Pack(pc, srchi, ndots);
    hide Pack;
    LowByte(w, pc, srchi + 256 * ndots);
    LowByte(srchi + 256 * ndots, srchi, ndots);
    HighPart(w, pc + 256 * srchi, ndots);
  }

  lemma PackIs(pc: nat, srchi: nat, ndots: nat)
    requires pc < 256 && srchi < 256 && ndots < 256
    ensures Pack(pc, srchi, ndots) == pc + 256 * srchi + 65536 * ndots
  {
  }

  lemma LowByte(w: nat, low: nat, high: nat)
    requires w == low + 256 * high && low < 256
    ensures w % 256 == low && w / 256 == high
  {
  }

  lemma HighPart(w: nat, low: nat, high: nat)
    requires w == low + 65536 * high && low < 65536 && high < 256
    ensures w / 65536 % 256 == high
  {
  }

  /** What a call still has to yield, from the word it finds. */
  function Remaining(c: Conf, q: string, w: nat): seq<string> {
    var pc, srchi := w % 256, w / 256 % 256;
    if pc == ENTRY then Candidates(c, q)
    else if pc == AFTER_FIRST || pc == AFTER_SUFFIX then Suffixed(c, q, srchi) + Last(c, q)
    else []
  }

  /** The words a generator for q can be left with, from a fresh one on. */
  predicate Reachable(c: Conf, q: string, w: nat) {
    var pc, srchi, ndots := w % 256, w / 256 % 256, w / 65536 % 256;
    && pc in {ENTRY, AFTER_FQDN, AFTER_FIRST, AFTER_SUFFIX, AFTER_LAST, LEFT} && srchi <= SEARCHES
    && (pc == ENTRY ==> w == 0)
    && (pc in {AFTER_FIRST, AFTER_SUFFIX} ==> ndots == Ndots(q) && !Anchored(q))
    && (pc == AFTER_FIRST ==> ndots >= c.ndots && srchi == 0)
  }

  lemma SuffixedStep(c: Conf, q: string, i: nat)
    requires |c.search| == SEARCHES
    ensures i < SEARCHES && c.search[i] != [] ==> Suffixed(c, q, i) == [Joined(q, c.search[i])] + Suffixed(c, q, i + 1)
    ensures !(i < SEARCHES && c.search[i] != []) ==> Suffixed(c, q, i) == []
  {
  }

  /** The first of what remains, and the rest; nothing stays nothing. */
  predicate Yields(c: Conf, q: string, w: nat, name: string, v: nat) {
    if Remaining(c, q, w) == [] then name == [] && Remaining(c, q, v) == []
    else Remaining(c, q, w) == [name] + Remaining(c, q, v) && name != []
  }

  lemma ScanYields(c: Conf, q: string, srchi: nat, ndots: nat)
    requires |c.search| == SEARCHES && 1 <= |q| <= 255 && !Anchored(q) && srchi <= SEARCHES && ndots == Ndots(q)
    ensures var rest := Suffixed(c, q, srchi) + Last(c, q);
            if srchi < SEARCHES && c.search[srchi] != [] then
              rest == [Joined(q, c.search[srchi])] + Remaining(c, q, Pack(AFTER_SUFFIX, srchi + 1, ndots))
            else if ndots < c.ndots then rest == [Anchor(q)] + Remaining(c, q, Pack(AFTER_LAST, srchi, ndots))
            else rest == []
  {
    SuffixedStep(c, q, srchi);
    Unpacked(AFTER_SUFFIX, srchi + 1, ndots);
    Unpacked(AFTER_LAST, srchi, ndots);
    hide Suffixed, Joined, Pack, Ndots;
  }

  /** The loop over the suffixes and what follows it, up to the next yield. */
  method Scan(c: Conf, q: string, srchi0: nat, ndots: nat) returns (name: string, v: nat)
    requires |c.search| == SEARCHES && 1 <= |q| <= 255 && !Anchored(q) && srchi0 <= SEARCHES && ndots == Ndots(q)
    ensures Reachable(c, q, v)
    ensures var rest := Suffixed(c, q, srchi0) + Last(c, q);
            if rest == [] then name == [] && Remaining(c, q, v) == []
            else rest == [name] + Remaining(c, q, v) && name != []
  {
    ScanYields(c, q, srchi0, ndots);
    var srchi := srchi0;
    if srchi < SEARCHES && c.search[srchi] != [] {
      var dn := c.search[srchi];
      srchi := srchi + 1;
      Unpacked(AFTER_SUFFIX, srchi, ndots);
      return q + [DOT] + dn + (if Anchored(dn) then [] else [DOT]), Pack(AFTER_SUFFIX, srchi, ndots);
    }
    if ndots < c.ndots {
      Unpacked(AFTER_LAST, srchi, ndots);
      return Anchor(q), Pack(AFTER_LAST, srchi, ndots);
    }
    Unpacked(LEFT, srchi, ndots);
    return [], Pack(LEFT, srchi, ndots);
  }

  /** One call: the next candidate, or nothing, and the new word. */
  method Next(c: Conf, q: string, w: nat) returns (name: string, v: nat)
    requires |c.search| == SEARCHES && 1 <= |q| <= 255 && Reachable(c, q, w)
    ensures Reachable(c, q, v) && Yields(c, q, w, name, v)
  {
    hide Pack, Suffixed;
    var pc, srchi, ndots := w % 256, w / 256 % 256, w / 65536 % 256;
    if pc == ENTRY {
      if Anchored(q) {
        Unpacked(AFTER_FQDN, srchi, ndots);
        return Anchor(q), Pack(AFTER_FQDN, srchi, ndots);
      }
      ndots := CountDots(q);
      if ndots >= c.ndots {
        Unpacked(AFTER_FIRST, srchi, ndots);
        return Anchor(q), Pack(AFTER_FIRST, srchi, ndots);
      }
      name, v := Scan(c, q, srchi, ndots);
    } else if pc == AFTER_FIRST || pc == AFTER_SUFFIX {
      name, v := Scan(c, q, srchi, ndots);
    } else {
      Unpacked(LEFT, srchi, ndots);
      return [], Pack(LEFT, srchi, ndots);
    }
  }

  /** Driven from 0 for n calls: the candidates in order, and nothing after the last one. */
  method Drive(c: Conf, q: string, n: nat) returns (names: seq<string>)
    requires |c.search| == SEARCHES && 1 <= |q| <= 255
    ensures |names| == n
    ensures forall k :: 0 <= k < n ==> names[k] == if k < |Candidates(c, q)| then Candidates(c, q)[k] else []
  {
    names := [];
    var w := 0;
    while |names| < n
      invariant |names| <= n && Reachable(c, q, w)
      invariant if |names| <= |Candidates(c, q)| then Remaining(c, q, w) == Candidates(c, q)[|names|..]
                else Remaining(c, q, w) == []
      invariant forall k :: 0 <= k < |names| ==> names[k] == if k < |Candidates(c, q)| then Candidates(c, q)[k] else []
      decreases n - |names|
    {
      var name;
      name, w := Next(c, q, w);
      names := names + [name];
    }
  }
}
