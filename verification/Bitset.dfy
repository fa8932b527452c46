/** A set of small numbers packed into 64-bit words, as the checker keeps the operations it
    has linearized so far. */
module Bitset {
  type Word = bv64

  const WORD: nat := 64

  predicate Bit(w: Word, m: bv6) { w & ((1 as Word) << m) != 0 }

  function Major(pos: nat): nat { pos / WORD }

  function Minor(pos: nat): bv6 { (pos % WORD) as bv6 }

  predicate Has(ws: seq<Word>, pos: nat) {
    Major(pos) < |ws| && Bit(ws[Major(pos)], Minor(pos))
  }

  /** The numbers that a sequence of words stands for. */
  ghost function Members(ws: seq<Word>): set<nat> {
    set pos: nat | pos < WORD * |ws| && Has(ws, pos)
  }

  // ---------------------------------------------------------------- single words

  function BitOn(w: Word, m: bv6): Word { w | ((1 as Word) << m) }

  function BitOff(w: Word, m: bv6): Word { w & !((1 as Word) << m) }

  lemma OnSame(w: Word, m: bv6)
    ensures Bit(BitOn(w, m), m)
  {
  }

  lemma OnMasks(w: Word, m: bv6, k: bv6)
    requires k != m
    ensures (w | ((1 as Word) << m)) & ((1 as Word) << k) == w & ((1 as Word) << k)
  {
  }

  lemma OffMasks(w: Word, m: bv6, k: bv6)
    requires k != m
    ensures (w & !((1 as Word) << m)) & ((1 as Word) << k) == w & ((1 as Word) << k)
  {
  }

  lemma SameBit(v: Word, w: Word, k: bv6)
    requires v & ((1 as Word) << k) == w & ((1 as Word) << k)
    ensures Bit(v, k) == Bit(w, k)
  {
  }

  lemma OnOther(w: Word, m: bv6, k: bv6)
    requires k != m
    ensures Bit(BitOn(w, m), k) == Bit(w, k)
  {
    OnMasks(w, m, k);
    SameBit(BitOn(w, m), w, k);
  }

  lemma OffSame(w: Word, m: bv6)
    ensures !Bit(BitOff(w, m), m)
  {
  }

  lemma OffOther(w: Word, m: bv6, k: bv6)
    requires k != m
    ensures Bit(BitOff(w, m), k) == Bit(w, k)
  {
    OffMasks(w, m, k);
    SameBit(BitOff(w, m), w, k);
  }

  /** The k + 1 lowest bits. */
  function Mask(k: bv6): Word { ((2 as Word) << k) - 1 }

  lemma MaskStep(x: Word, k: bv6)
    requires k > 0 && x & Mask(k - 1) == 0 && !Bit(x, k)
    ensures x & Mask(k) == 0
  {
  }

  lemma XorBit(v: Word, w: Word, k: bv6)
    requires Bit(v, k) == Bit(w, k)
    ensures !Bit(v ^ w, k)
  {
  }

  lemma {:induction false} LowBits(v: Word, w: Word, k: bv6)
    requires forall j: bv6 :: j <= k ==> Bit(v, j) == Bit(w, j)
    ensures (v ^ w) & Mask(k) == 0
    decreases k as int
  {
    XorBit(v, w, k);
    if k > 0 {
      LowBits(v, w, k - 1);
      MaskStep(v ^ w, k);
    }
  }

  lemma FullMask(x: Word)
    requires x & Mask(63) == 0
    ensures x == 0
  {
  }

  lemma XorZero(v: Word, w: Word)
    requires v ^ w == 0
    ensures v == w
  {
  }

  /** Words with the same bits are equal. */
  lemma WordsEqual(v: Word, w: Word)
    requires forall j: bv6 :: Bit(v, j) == Bit(w, j)
    ensures v == w
  {
    LowBits(v, w, 63);
    FullMask(v ^ w);
    XorZero(v, w);
  }

  lemma MinorBack(m: nat)
    requires m < 64
    ensures (m as bv6) as int == m
  {
  }

  lemma MinorInjective(m: nat, k: nat)
    requires m < 64 && k < 64 && m as bv6 == k as bv6
    ensures m == k
  {
    MinorBack(m);
    MinorBack(k);
  }

  lemma MinorOf(j: bv6)
    ensures 0 <= j as int < 64 && (j as int) as bv6 == j
  {
  }

  /** A position is the pair of its word and its bit. */
  lemma SamePlace(a: nat, b: nat)
    requires Major(a) == Major(b) && Minor(a) == Minor(b)
    ensures a == b
  {
    MinorInjective(a % WORD, b % WORD);
  }

  // ---------------------------------------------------------------- sequences of words

  function WithBit(ws: seq<Word>, i: nat, m: bv6): seq<Word>
    requires i < |ws|
  {
    ws[i := BitOn(ws[i], m)]
  }

  function WithoutBit(ws: seq<Word>, i: nat, m: bv6): seq<Word>
    requires i < |ws|
  {
    ws[i := BitOff(ws[i], m)]
  }

  lemma WithBitHas(ws: seq<Word>, i: nat, m: bv6, j: nat, k: bv6)
    requires i < |ws| && j < |ws|
    ensures Bit(WithBit(ws, i, m)[j], k) <==> (i == j && m == k) || Bit(ws[j], k)
  {
    if i == j {
      if m == k {
        OnSame(ws[i], m);
      } else {
        OnOther(ws[i], m, k);
      }
    }
  }

  lemma WithoutBitHas(ws: seq<Word>, i: nat, m: bv6, j: nat, k: bv6)
    requires i < |ws| && j < |ws|
    ensures Bit(WithoutBit(ws, i, m)[j], k) <==> !(i == j && m == k) && Bit(ws[j], k)
  {
    if i == j {
      if m == k {
        OffSame(ws[i], m);
      } else {
        OffOther(ws[i], m, k);
      }
    }
  }

  lemma HasAfterSet(ws: seq<Word>, pos: nat, k: nat)
    requires Major(pos) < |ws|
    ensures Has(WithBit(ws, Major(pos), Minor(pos)), k) <==> k == pos || Has(ws, k)
  {
    if Major(k) < |ws| {
      WithBitHas(ws, Major(pos), Minor(pos), Major(k), Minor(k));
      if Major(k) == Major(pos) && Minor(k) == Minor(pos) {
        SamePlace(k, pos);
      }
    }
  }

  lemma HasAfterClear(ws: seq<Word>, pos: nat, k: nat)
    requires Major(pos) < |ws|
    ensures Has(WithoutBit(ws, Major(pos), Minor(pos)), k) <==> k != pos && Has(ws, k)
  {
    if Major(k) < |ws| {
      WithoutBitHas(ws, Major(pos), Minor(pos), Major(k), Minor(k));
      if Major(k) == Major(pos) && Minor(k) == Minor(pos) {
        SamePlace(k, pos);
      }
    }
  }

  lemma SetMembers(ws: seq<Word>, pos: nat, ws': seq<Word>)
    requires pos < WORD * |ws| && Major(pos) < |ws| && ws' == WithBit(ws, Major(pos), Minor(pos))
    ensures Members(ws') == Members(ws) + {pos}
  {
    forall k: nat ensures k in Members(ws') <==> k in Members(ws) + {pos} {
      HasAfterSet(ws, pos, k);
    }
  }

  lemma ClearMembers(ws: seq<Word>, pos: nat, ws': seq<Word>)
    requires pos < WORD * |ws| && Major(pos) < |ws| && ws' == WithoutBit(ws, Major(pos), Minor(pos))
    ensures Members(ws') == Members(ws) - {pos}
  {
    forall k: nat ensures k in Members(ws') <==> k in Members(ws) - {pos} {
      HasAfterClear(ws, pos, k);
    }
  }

  /** Word sequences of one length stand for the same numbers only if they are equal. */
  lemma MembersDetermine(a: seq<Word>, b: seq<Word>)
    requires |a| == |b| && Members(a) == Members(b)
    ensures a == b
  {
    forall i | 0 <= i < |a| ensures a[i] == b[i] {
      forall j: bv6 ensures Bit(a[i], j) == Bit(b[i], j) {
        MinorOf(j);
        var pos := WORD * i + (j as int);
        assert Major(pos) == i && Minor(pos) == j;
        assert pos in Members(a) <==> Bit(a[i], j);
        assert pos in Members(b) <==> Bit(b[i], j);
      }
      WordsEqual(a[i], b[i]);
    }
  }

  /** How many of the lowest k bits are set. */
  function CountTo(w: Word, k: nat): nat
    requires k <= WORD
  {
    if k == 0 then 0 else CountTo(w, k - 1) + if Bit(w, (k - 1) as bv6) then 1 else 0
  }

  function OnesCount(w: Word): nat { CountTo(w, WORD) }

  function Popcount(ws: seq<Word>): nat {
    if |ws| == 0 then 0 else Popcount(ws[..|ws| - 1]) + OnesCount(ws[|ws| - 1])
  }

  /** The members below a bound. */
  ghost function Below(ws: seq<Word>, bound: nat): set<nat> { set pos: nat | pos < bound && Has(ws, pos) }

  lemma PlaceBit(ws: seq<Word>, i: nat, m: nat)
    requires i < |ws| && m < WORD
    ensures Has(ws, WORD * i + m) <==> Bit(ws[i], m as bv6)
  {
    hide Bit;
    assert (WORD * i + m) / WORD == i && (WORD * i + m) % WORD == m;
  }

  lemma {:induction false} BelowCount(ws: seq<Word>, i: nat, k: nat)
    requires i < |ws| && k <= WORD
    ensures |Below(ws, WORD * i + k)| == Popcount(ws[..i]) + CountTo(ws[i], k)
    decreases i, k
  {
    hide Has, Bit;
    if k > 0 {
      BelowCount(ws, i, k - 1);
      var pos := WORD * i + (k - 1);
      PlaceBit(ws, i, k - 1);
      assert Below(ws, pos + 1) == Below(ws, pos) + if Has(ws, pos) then {pos} else {};
    } else if i > 0 {
      BelowCount(ws, i - 1, WORD);
      assert ws[..i][..i - 1] == ws[..i - 1];
    } else {
      assert Below(ws, 0) == {};
    }
  }

  /** The bits set in all words are the members. */
  lemma PopcountMembers(ws: seq<Word>)
    ensures Popcount(ws) == |Members(ws)|
  {
    if |ws| > 0 {
      var last := |ws| - 1;
      BelowCount(ws, last, WORD);
      assert Below(ws, WORD * last + WORD) == Members(ws);
    } else {
      assert Members(ws) == {};
    }
  }

  /** A count as a 64-bit number. */
  function Wrap(n: nat): Word { (n % 0x1_0000_0000_0000_0000) as Word }

  function Xor(a: Word, b: Word): Word { a ^ b }

  function XorAll(start: Word, ws: seq<Word>): Word {
    if |ws| == 0 then start else Xor(XorAll(start, ws[..|ws| - 1]), ws[|ws| - 1])
  }

  lemma BitsAssoc(a: Word, b: Word, c: Word)
    ensures (a ^ b) ^ c == a ^ (b ^ c)
  {
  }

  lemma XorAssoc(a: Word, b: Word, c: Word)
    ensures Xor(Xor(a, b), c) == Xor(a, Xor(b, c))
  {
    BitsAssoc(a, b, c);
  }

  lemma XorComm(a: Word, b: Word)
    ensures Xor(a, b) == Xor(b, a)
  {
  }

  lemma XorNone(a: Word)
    ensures Xor(a, a) == 0 && Xor(0, a) == a && Xor(a, 0) == a
  {
  }

  lemma XorReplaces(a: Word, v: Word, w: Word)
    ensures Xor(a, w) == Xor(Xor(a, v), Xor(v, w))
  {
    hide Xor;
    XorAssoc(a, v, Xor(v, w));
    XorAssoc(v, v, w);
    XorNone(v);
    XorNone(w);
  }

  lemma XorPasses(a: Word, b: Word, v: Word)
    ensures Xor(Xor(a, v), b) == Xor(Xor(a, b), v)
  {
    hide Xor;
    XorAssoc(a, v, b);
    XorAssoc(a, b, v);
    XorComm(b, v);
  }

  /** Folding in a word and then another gives back what was there exactly if they are the same. */
  lemma XorKeeps(a: Word, v: Word, w: Word)
    ensures Xor(a, Xor(v, w)) == a <==> v == w
  {
    hide Xor;
    XorNone(v);
    XorNone(a);
    if Xor(a, Xor(v, w)) == a {
      XorAssoc(a, a, Xor(v, w));
      XorNone(Xor(v, w));
      XorAssoc(v, v, w);
      XorNone(w);
    }
  }

  /** What changing one word does to the fold, wherever the word is. */
  lemma {:induction false} XorChanges(start: Word, ws: seq<Word>, i: nat, w: Word)
    requires i < |ws|
    ensures XorAll(start, ws[i := w]) == Xor(XorAll(start, ws), Xor(ws[i], w))
    decreases |ws|
  {
    hide Xor;
    var last := |ws| - 1;
    assert ws[i := w][..last] == if i < last then ws[..last][i := w] else ws[..last];
    var before := XorAll(start, ws[..last]);
    if i < last {
      XorChanges(start, ws[..last], i, w);
      XorPasses(before, ws[last], Xor(ws[i], w));
    } else {
      XorReplaces(before, ws[last], w);
    }
  }

  /** So two sets that differ in one word, and not in number, never share a hash. */
  lemma OneWordHashesApart(ws: seq<Word>, i: nat, w: Word)
    requires i < |ws| && |Members(ws[i := w])| == |Members(ws)|
    ensures Hash(ws[i := w]) == Hash(ws) <==> w == ws[i]
  {
    hide Xor;
    PopcountMembers(ws);
    PopcountMembers(ws[i := w]);
    var start := Wrap(Popcount(ws));
    XorChanges(start, ws, i, w);
    XorKeeps(XorAll(start, ws), ws[i], w);
  }

  /** The number of members folded with every word. */
  function Hash(ws: seq<Word>): Word {
    XorAll(Wrap(Popcount(ws)), ws)
  }

  // ---------------------------------------------------------------- the mutable set

  class Bits {
    const words: array<Word>

    ghost function Elements(): set<nat>
      reads words
    {
      Members(words[..])
    }

    constructor (bits: nat)
      ensures fresh(words) && words.Length == bits / WORD + (if bits % WORD != 0 then 1 else 0)
      ensures bits <= WORD * words.Length
      ensures Elements() == {}
    {
      var extra := if bits % WORD != 0 then 1 else 0;
      words := new Word[bits / WORD + extra](_ => 0);
    }

    constructor Of(source: array<Word>)
      ensures words == source
    {
      words := source;
    }

    method Clone() returns (b: Bits)
      ensures fresh(b) && fresh(b.words) && b.words[..] == words[..]
      ensures b.Elements() == Elements()
    {
      var copy := new Word[words.Length];
      for i := 0 to words.Length
        invariant copy[..i] == words[..i]
      {
        copy[i] := words[i];
      }
      assert copy[..] == words[..];
      b := new Bits.Of(copy);
    }

    method Set(pos: nat)
      requires pos < WORD * words.Length
      modifies words
      ensures Elements() == old(Elements()) + {pos}
    {
      var major, minor := Major(pos), Minor(pos);
      ghost var before := words[..];
      words[major] := BitOn(words[major], minor);
      SetMembers(before, pos, words[..]);
    }

    method Clear(pos: nat)
      requires pos < WORD * words.Length
      modifies words
      ensures Elements() == old(Elements()) - {pos}
    {
      var major, minor := Major(pos), Minor(pos);
      ghost var before := words[..];
      words[major] := BitOff(words[major], minor);
      ClearMembers(before, pos, words[..]);
    }

    method Get(pos: nat) returns (present: bool)
      requires pos < WORD * words.Length
      ensures present <==> pos in Elements()
    {
      present := Bit(words[Major(pos)], Minor(pos));
    }

    method Popcnt() returns (total: nat)
      ensures total == Popcount(words[..]) == |Elements()|
    {
      total := 0;
      for i := 0 to words.Length
        invariant total == Popcount(words[..i])
      {
        assert words[..i + 1][..i] == words[..i];
        total := total + OnesCount(words[i]);
      }
      assert words[..] == words[..words.Length];
      PopcountMembers(words[..]);
    }

    method HashCode() returns (hash: Word)
      ensures hash == Hash(words[..]) == XorAll(Wrap(|Elements()|), words[..])
    {
      var total := Popcnt();
      var start := Wrap(total);
      hash := start;
      for i := 0 to words.Length
        invariant hash == XorAll(start, words[..i])
      {
        assert words[..i + 1][..i] == words[..i];
        hash := hash ^ words[i];
      }
      assert words[..] == words[..words.Length];
    }

    /** Equality of the words; for sets of one length, equality of the sets. */
    method Equals(other: Bits) returns (same: bool)
      ensures same <==> words[..] == other.words[..]
      ensures words.Length == other.words.Length ==> (same <==> Elements() == other.Elements())
    {
      same := words.Length == other.words.Length;
      if same {
        var i := 0;
        while i < words.Length && words[i] == other.words[i]
          invariant i <= words.Length && words[..i] == other.words[..i]
        {
          i := i + 1;
        }
        same := i == words.Length;
        if Elements() == other.Elements() {
          MembersDetermine(words[..], other.words[..]);
        }
      }
    }
  }
}
