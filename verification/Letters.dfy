/** Names up to the case of ASCII letters, stated on their bytes. */
module Letters {
  import opened Options
  import opened Names
  import opened Compress
  import opened Dictionary

  /** Byte by byte the same, but that a capital letter may stand for a small one, which is 32 higher. */
  predicate SameLetters(a: Bytes, b: Bytes) {
    && |a| == |b|
    && forall i :: 0 <= i < |a| ==>
         || a[i] == b[i]
         || (65 <= a[i] <= 90 && b[i] == a[i] + 32)
         || (65 <= b[i] <= 90 && a[i] == b[i] + 32)
  }

  predicate NameLetters(m: Name, n: Name) { |m| == |n| && forall k :: 0 <= k < |m| ==> SameLetters(m[k], n[k]) }

  /** Labels are the same if and only if they have as many bytes, and in every place the same byte or the
      two cases of one letter from A to Z. */
  lemma SameLabelExact(a: Label, b: Label)
    ensures SameLabel(a, b) <==>
            && |a| == |b|
            && forall i :: 0 <= i < |a| ==>
                 || a[i] == b[i]
                 || (65 <= a[i] <= 90 && b[i] == a[i] + 32)
                 || (65 <= b[i] <= 90 && a[i] == b[i] + 32)
  {
    forall i | 0 <= i < |a| && |a| == |b|
      ensures Lower(a[i]) == Lower(b[i]) <==>
              a[i] == b[i] || (65 <= a[i] <= 90 && b[i] == a[i] + 32) || (65 <= b[i] <= 90 && a[i] == b[i] + 32)
    {
    }
  }

  lemma SameNameExact(m: Name, n: Name)
    ensures SameName(m, n) <==> NameLetters(m, n)
  {
    hide SameLabel, SameLetters;
    forall k | 0 <= k < |m| && |m| == |n| ensures SameLabel(m[k], n[k]) <==> SameLetters(m[k], n[k]) {
      SameLettersExact(m[k], n[k]);
    }
  }

  lemma SameLettersExact(a: Label, b: Label)
    ensures SameLabel(a, b) <==> SameLetters(a, b)
  {
    SameLabelExact(a, b);
  }

  lemma {:induction false} CStringIs(a: Bytes, p: nat)
    requires p <= |a| && 0 !in a[..p] && (p < |a| ==> a[p] == 0)
    ensures CString(a) == a[..p]
  {
    if p > 0 {
      assert a[..p][0] == a[0];
      assert a[1..][..p - 1] == a[..p][1..];
      forall x | x in a[1..][..p - 1] ensures x in a[..p] {}
      CStringIs(a[1..], p - 1);
      assert a[..p] == [a[0]] + a[1..][..p - 1];
    }
  }

  /** The comparison stops at the first NUL of either text: p and q are where those stand, or the lengths. */
  lemma CaseEqualExact(a: Bytes, b: Bytes, p: nat, q: nat)
    requires p <= |a| && (forall i :: 0 <= i < p ==> a[i] != 0) && (p < |a| ==> a[p] == 0)
    requires q <= |b| && (forall i :: 0 <= i < q ==> b[i] != 0) && (q < |b| ==> b[q] == 0)
    ensures CaseEqual(a, b) <==> SameLetters(a[..p], b[..q])
  {
    hide SameLabel, SameLetters;
    CStringIs(a, p);
    CStringIs(b, q);
    SameLettersExact(a[..p], b[..q]);
  }

  /** The place of the first NUL, or the length. */
  function FirstNul(a: Bytes): (p: nat)
    ensures p <= |a| && (forall i :: 0 <= i < p ==> a[i] != 0) && (p < |a| ==> a[p] == 0)
  {
    if a == [] || a[0] == 0 then 0 else 1 + FirstNul(a[1..])
  }

  /** Two C strings are the same but for the case of letters. */
  predicate SameString(a: Bytes, b: Bytes) { SameLetters(a[..FirstNul(a)], b[..FirstNul(b)]) }

  lemma SameStringExact(a: Bytes, b: Bytes)
    ensures CaseEqual(a, b) <==> SameString(a, b)
  {
    CaseEqualExact(a, b, FirstNul(a), FirstNul(b));
  }

  /** What a pushed name reads back as: the name itself, but for the case of letters, exactly when no match was
      used, or it began with the right label in hand and can bear one more pointer. */
  lemma CompressionLetters(d: Bytes, dict: seq<nat>, lim: nat, n: Name)
    requires HEADER <= |d| && DictOk(d, dict) && GoodName(n)
    ensures var e, h := d + Encoding(d, dict, lim, n), Used(d, dict, lim, n);
            (Stored(e, |d|).Some? && NameLetters(Stored(e, |d|).value, n)) <==>
            (h.Some? ==>
               && h.value.s <= h.value.key < |n| && SameLetters(n[h.value.key], n[h.value.s])
               && PtrRun(d, h.value.pos) < 127)
  {
    CompressionExact(d, dict, lim, n);
    var e, h := d + Encoding(d, dict, lim, n), Used(d, dict, lim, n);
    hide SameLabel, SameLetters, Encoding, Used, SameName, NameLetters, DictOk, PtrRun, Stored, GoodName;
    if Stored(e, |d|).Some? { SameNameExact(Stored(e, |d|).value, n); }
    if h.Some? && h.value.s <= h.value.key < |n| { SameLettersExact(n[h.value.key], n[h.value.s]); }
  }

  /** No two labels of the name are the same. */
  predicate AllDiffer(n: Name) { forall i, j :: 0 <= i < j < |n| ==> !SameLetters(n[i], n[j]) }

  lemma RepeatsExact(n: Name)
    ensures RepeatsLabel(n) <==> !AllDiffer(n)
  {
    hide SameLabel, SameLetters;
    forall i, j | 0 <= i < j < |n| ensures SameLabel(n[i], n[j]) <==> SameLetters(n[i], n[j]) {
      SameLettersExact(n[i], n[j]);
    }
  }

  // ----- names that are found -----

  lemma GoodLettersEqual(a: Label, b: Label)
    requires GoodLabel(a) && GoodLabel(b)
    ensures CaseEqual(a, b) <==> SameLetters(a, b)
  {
    CStringWhole(a);
    CStringWhole(b);
    SameLettersExact(a, b);
  }

  lemma ComparesWhole(n: Name, s: nat, b: Name)
    requires GoodName(n) && GoodName(b) && s < |n| && NameLetters(b, n[s..])
    ensures b != [] && Compare(n, s, s, b).hit
  {
    hide CaseEqual, SameLetters, GoodLabel;
    forall x | 0 <= x < |b| ensures CaseEqual(n[s + x], b[x]) {
      assert GoodLabel(n[s + x]) && GoodLabel(b[x]) && n[s..][x] == n[s + x];
      GoodLettersEqual(b[x], n[s + x]);
      SameSwap(b[x], n[s + x]);
    }
    assert CaseEqual(n[s + 0], b[0]);
    forall x | s + 1 <= x < |n| ensures CaseEqual(n[x], b[x - (s + 1) + 1]) {
      assert CaseEqual(n[s + (x - s)], b[x - s]);
    }
    AdvanceHit(n, s + 1, b, 1);
  }

  lemma SameSwap(a: Label, b: Label)
    ensures CaseEqual(a, b) <==> CaseEqual(b, a)
  {
    hide CString;
  }

  lemma {:induction false} ScanFinds(n: Name, s: nat, c: seq<Cand>, i: nat)
    requires GoodName(n) && s < |n| && (forall x :: x in c ==> x.name != []) && i < |c|
    requires GoodName(c[i].name) && NameLetters(c[i].name, n[s..]) && c[i].pos <= 0x3fff
    requires forall k :: 0 <= k < i ==> !CaseEqual(n[s], c[k].name[0])
    ensures Scan(n, s, s, c) == Some(Hit(s, s, c[i].pos, c[i].name))
    decreases i
  {
    hide CaseEqual, SameLetters, GoodLabel, NameLetters;
    if i == 0 {
      ComparesWhole(n, s, c[0].name);
    } else {
      ScanFinds(n, s, c[1..], i - 1);
    }
  }

  lemma {:induction false} SearchFinds(n: Name, t: nat, s: nat, c: seq<Cand>)
    requires t <= s < |n| && (forall x :: x in c ==> x.name != []) && Scan(n, s, s, c).Some?
    ensures Search(n, t, c).Some?
    decreases s - t
  {
    hide Scan;
    if t < s && Scan(n, t, t, c).None? { SearchFinds(n, t + 1, s, c); }
  }

  /** A name is written with a pointer when one of its suffixes is on offer within reach, and no name offered before
      it begins with the suffix's first label; and the pointer is to that name, when the suffix is the whole. */
  lemma StoredFound(n: Name, s: nat, c: seq<Cand>, i: nat)
    requires GoodName(n) && s < |n| && (forall x :: x in c ==> x.name != [] && GoodName(x.name)) && i < |c|
    requires NameLetters(c[i].name, n[s..]) && c[i].pos <= 0x3fff
    requires forall k :: 0 <= k < i ==> !SameLetters(n[s], c[k].name[0])
    ensures Search(n, 0, c).Some? && (s == 0 ==> Search(n, 0, c) == Some(Hit(0, 0, c[i].pos, c[i].name)))
  {
    forall k | 0 <= k < i ensures !CaseEqual(n[s], c[k].name[0]) {
      assert c[k] in c && GoodLabel(n[s]) && GoodLabel(c[k].name[0]);
      GoodLettersEqual(n[s], c[k].name[0]);
    }
    hide CaseEqual, SameLetters, GoodLabel, NameLetters;
    assert c[i] in c;
    ScanFinds(n, s, c, i);
    SearchFinds(n, 0, s, c);
  }

  // ----- texts -----

  /** Where label k of a name begins in its text: after the labels before it, each with its dot. */
  function TextPlace(n: Name, k: nat): nat
    requires k <= |n|
  {
    if k == 0 then 0 else |n[0]| + 1 + TextPlace(n[1..], k - 1)
  }

  /** The text of a name is its labels, each followed by a dot; the text of the root is one dot. */
  lemma {:induction false} TextExact(n: Name, k: nat)
    requires k < |n|
    ensures var t, p := Text(n), TextPlace(n, k);
            && |t| == TextPlace(n, |n|) && p + |n[k]| < |t| && t[p..p + |n[k]|] == n[k] && t[p + |n[k]|] == 46
    ensures Text([]) == [46]
    decreases k
  {
    TextLength(n);
    if k > 0 {
      TextExact(n[1..], k - 1);
      var p := TextPlace(n[1..], k - 1);
      assert Text(n) == n[0] + [46] + Text(n[1..]);
      TextSplit(n[0] + [46], Text(n[1..]), p, p + |n[k]|);
    }
  }

  lemma TextSplit(a: Bytes, b: Bytes, lo: nat, hi: nat)
    requires lo <= hi < |b|
    ensures (a + b)[|a| + lo..|a| + hi] == b[lo..hi] && (a + b)[|a| + hi] == b[hi]
  {
  }

  lemma {:induction false} TextLength(n: Name)
    ensures |Dotted(n)| == TextPlace(n, |n|)
  {
    if n != [] { TextLength(n[1..]); }
  }
}
