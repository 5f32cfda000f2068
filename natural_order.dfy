/**
 * Natural ("alphanumeric") ordering of strings: runs of decimal digits are compared by
 * their numeric value, every other character by its code point, so that "file2" comes
 * before "file10". This is the order of the keys of every ordered store of the inventory.
 *
 * The repository delegates the comparison to the foreign crate `natord`, whose code is not
 * part of this model. The comparator below is a stand-in with the documented behaviour: a
 * string is cut into chunks (a maximal digit run, or one non-digit character), every chunk
 * gets a rank, and the rank sequences are compared lexicographically.
 */
module NaturalOrder {

  datatype Ordering = Less | Equal | Greater {

    /** The same comparison seen from the other operand. */
    function Reverse(): Ordering {
      match this
      case Less => Greater
      case Equal => Equal
      case Greater => Less
    }
  }

  predicate IsDigit(c: char) {
    '0' <= c <= '9'
  }

  predicate AllDigits(s: string) {
    forall i :: 0 <= i < |s| ==> IsDigit(s[i])
  }

  /** A maximal run of decimal digits, or a single character that is not a digit. */
  datatype Chunk = Digits(run: string) | Other(c: char)

  predicate WellFormed(k: Chunk) {
    match k
    case Digits(run) => |run| > 0 && AllDigits(run)
    case Other(c) => !IsDigit(c)
  }

  /** Length of the run of digits at the start of `s`. */
  function DigitPrefixLength(s: string): (n: nat)
    ensures n <= |s|
  {
    if s == [] || !IsDigit(s[0]) then 0 else 1 + DigitPrefixLength(s[1..])
  }

  /** The prefix is all digits and stops at the first non-digit. */
  lemma {:induction false} DigitPrefixIsRun(s: string)
    ensures AllDigits(s[..DigitPrefixLength(s)])
    ensures DigitPrefixLength(s) < |s| ==> !IsDigit(s[DigitPrefixLength(s)])
    decreases |s|
  {
    if s != [] && IsDigit(s[0]) {
      DigitPrefixIsRun(s[1..]);
      var n := DigitPrefixLength(s);
      assert forall i :: 1 <= i < n ==> s[..n][i] == s[1..][..n - 1][i - 1];
    }
  }

  /** `s` cut into digit runs and single non-digit characters, left to right. */
  function Chunks(s: string): seq<Chunk>
    decreases |s|
  {
    if s == [] then []
    else if IsDigit(s[0]) then
      var n := DigitPrefixLength(s);
      [Digits(s[..n])] + Chunks(s[n..])
    else
      [Other(s[0])] + Chunks(s[1..])
  }

  function Spelling(k: Chunk): string {
    match k
    case Digits(run) => run
    case Other(c) => [c]
  }

  function Join(ks: seq<Chunk>): string {
    if ks == [] then [] else Spelling(ks[0]) + Join(ks[1..])
  }

  /** Every chunk is a non-empty digit run or a single non-digit character. */
  lemma {:induction false} ChunksWellFormed(s: string)
    ensures forall i :: 0 <= i < |Chunks(s)| ==> WellFormed(Chunks(s)[i])
    decreases |s|
  {
    if s != [] {
      if IsDigit(s[0]) {
        var n := DigitPrefixLength(s);
        DigitPrefixIsRun(s);
        ChunksWellFormed(s[n..]);
        assert forall i :: 1 <= i < |Chunks(s)| ==> Chunks(s)[i] == Chunks(s[n..])[i - 1];
      } else {
        ChunksWellFormed(s[1..]);
        assert forall i :: 1 <= i < |Chunks(s)| ==> Chunks(s)[i] == Chunks(s[1..])[i - 1];
      }
    }
  }

  /** Cutting a string into chunks loses nothing. */
  lemma {:induction false} JoinChunks(s: string)
    ensures Join(Chunks(s)) == s
    decreases |s|
  {
    if s == [] {
    } else if IsDigit(s[0]) {
      var n := DigitPrefixLength(s);
      var ks := [Digits(s[..n])] + Chunks(s[n..]);
      assert ks[1..] == Chunks(s[n..]);
      JoinChunks(s[n..]);
      assert s == s[..n] + s[n..];
    } else {
      var ks := [Other(s[0])] + Chunks(s[1..]);
      assert ks[1..] == Chunks(s[1..]);
      JoinChunks(s[1..]);
      assert s == [s[0]] + s[1..];
    }
  }

  function DigitValue(c: char): int {
    c as int - '0' as int
  }

  /** The decimal value of a run of digits. */
  function Value(run: string): int
    decreases |run|
  {
    if run == [] then 0 else 10 * Value(run[..|run| - 1]) + DigitValue(run[|run| - 1])
  }

  /** Two digit runs of the same width and the same value are the same run. */
  lemma {:induction false} ValueDeterminesRun(a: string, b: string)
    requires AllDigits(a) && AllDigits(b)
    requires |a| == |b| && Value(a) == Value(b)
    ensures a == b
    decreases |a|
  {
    if a != [] {
      var n := |a|;
      var a', b' := a[..n - 1], b[..n - 1];
      assert 0 <= DigitValue(a[n - 1]) <= 9 && 0 <= DigitValue(b[n - 1]) <= 9;
      LastDigitSplits(Value(a'), Value(b'), DigitValue(a[n - 1]), DigitValue(b[n - 1]));
      ValueDeterminesRun(a', b');
      assert a == a' + [a[n - 1]] && b == b' + [b[n - 1]];
    }
  }

  lemma LastDigitSplits(x: int, y: int, d: int, e: int)
    requires 0 <= d <= 9 && 0 <= e <= 9
    requires 10 * x + d == 10 * y + e
    ensures x == y && d == e
  {
  }

  /**
   * The rank of a chunk. A digit run ranks as the character '0' followed by its value
   * (then its width, so that leading zeros still tell runs apart): against a non-digit
   * character it compares as any of its digits would, since the digits are contiguous in
   * code point order, and against another digit run it compares by numeric value.
   */
  datatype Rank = Rank(lead: int, value: int, width: int)

  function RankOf(k: Chunk): Rank {
    match k
    case Digits(run) => Rank('0' as int, Value(run), |run|)
    case Other(c) => Rank(c as int, 0, 0)
  }

  function Ranks(ks: seq<Chunk>): (rs: seq<Rank>)
    ensures |rs| == |ks|
  {
    if ks == [] then [] else [RankOf(ks[0])] + Ranks(ks[1..])
  }

  function CompareInt(a: int, b: int): Ordering {
    if a < b then Less else if a > b then Greater else Equal
  }

  function CompareRank(a: Rank, b: Rank): Ordering {
    if a.lead != b.lead then CompareInt(a.lead, b.lead)
    else if a.value != b.value then CompareInt(a.value, b.value)
    else CompareInt(a.width, b.width)
  }

  /** Lexicographic comparison of rank sequences; a proper prefix comes first. */
  function CompareRanks(x: seq<Rank>, y: seq<Rank>): Ordering
    decreases |x|
  {
    if x == [] then (if y == [] then Equal else Less)
    else if y == [] then Greater
    else
      var o := CompareRank(x[0], y[0]);
      if o != Equal then o else CompareRanks(x[1..], y[1..])
  }

  function Key(s: string): seq<Rank> {
    Ranks(Chunks(s))
  }

  /**
   * The natural-order comparison of two strings (`natord::compare`). It answers Equal only
   * for identical strings, so it agrees with string equality.
   */
  function Compare(a: string, b: string): (r: Ordering)
    ensures r == Equal <==> a == b
  {
    CompareRanksEqual(Key(a), Key(b));
    KeyDeterminesString(a, b);
    CompareRanks(Key(a), Key(b))
  }

  predicate NatLess(a: string, b: string) {
    Compare(a, b) == Less
  }

  lemma {:induction false} CompareRanksReverse(x: seq<Rank>, y: seq<Rank>)
    ensures CompareRanks(y, x) == CompareRanks(x, y).Reverse()
    decreases |x|
  {
    if x != [] && y != [] && CompareRank(x[0], y[0]) == Equal {
      CompareRanksReverse(x[1..], y[1..]);
    }
  }

  lemma {:induction false} CompareRanksEqual(x: seq<Rank>, y: seq<Rank>)
    ensures CompareRanks(x, y) == Equal <==> x == y
    decreases |x|
  {
    if x != [] && y != [] {
      CompareRanksEqual(x[1..], y[1..]);
      if x[0] == y[0] && x[1..] == y[1..] {
        assert x == [x[0]] + x[1..] && y == [y[0]] + y[1..];
      }
    }
  }

  lemma CompareRankTransitive(a: Rank, b: Rank, c: Rank)
    requires CompareRank(a, b) != Greater && CompareRank(b, c) != Greater
    ensures CompareRank(a, c) != Greater
    ensures CompareRank(a, b) == Less || CompareRank(b, c) == Less ==> CompareRank(a, c) == Less
  {
  }

  lemma {:induction false} CompareRanksTransitive(x: seq<Rank>, y: seq<Rank>, z: seq<Rank>)
    requires CompareRanks(x, y) == Less && CompareRanks(y, z) == Less
    ensures CompareRanks(x, z) == Less
    decreases |x|
  {
    if x != [] && y != [] && z != [] {
      CompareRankTransitive(x[0], y[0], z[0]);
      if CompareRank(x[0], y[0]) == Equal && CompareRank(y[0], z[0]) == Equal {
        CompareRanksTransitive(x[1..], y[1..], z[1..]);
      }
    }
  }

  lemma RankOfInjective(k: Chunk, l: Chunk)
    requires WellFormed(k) && WellFormed(l) && RankOf(k) == RankOf(l)
    ensures k == l
  {
    if k.Digits? && l.Digits? {
      ValueDeterminesRun(k.run, l.run);
    }
  }

  lemma {:induction false} RanksInjective(a: seq<Chunk>, b: seq<Chunk>)
    requires forall i :: 0 <= i < |a| ==> WellFormed(a[i])
    requires forall i :: 0 <= i < |b| ==> WellFormed(b[i])
    requires Ranks(a) == Ranks(b)
    ensures a == b
    decreases |a|
  {
    if a != [] {
      assert Ranks(a)[0] == RankOf(a[0]) && Ranks(b)[0] == RankOf(b[0]);
      RankOfInjective(a[0], b[0]);
      assert Ranks(a)[1..] == Ranks(a[1..]) && Ranks(b)[1..] == Ranks(b[1..]);
      RanksInjective(a[1..], b[1..]);
      assert a == [a[0]] + a[1..] && b == [b[0]] + b[1..];
    }
  }

  /** Swapping the operands reverses the outcome. */
  lemma CompareReverse(a: string, b: string)
    ensures Compare(b, a) == Compare(a, b).Reverse()
  {
    CompareRanksReverse(Key(a), Key(b));
  }

  /** The comparison calls two strings equal exactly when they are the same string. */
  lemma KeyDeterminesString(a: string, b: string)
    ensures Key(a) == Key(b) ==> a == b
  {
    if Key(a) == Key(b) {
      ChunksWellFormed(a);
      ChunksWellFormed(b);
      RanksInjective(Chunks(a), Chunks(b));
      JoinChunks(a);
      JoinChunks(b);
    }
  }

  lemma NatLessTransitive(a: string, b: string, c: string)
    requires NatLess(a, b) && NatLess(b, c)
    ensures NatLess(a, c)
  {
    CompareRanksTransitive(Key(a), Key(b), Key(c));
  }

  /** Any two different strings are ordered one way or the other, and never both ways. */
  lemma NatLessTotal(a: string, b: string)
    ensures !NatLess(a, a)
    ensures a != b ==> (NatLess(a, b) <==> !NatLess(b, a))
  {
    CompareReverse(a, b);
  }

  lemma {:induction false} DigitPrefixStopsInside(p: string, s: string)
    requires |p| > 0 && !IsDigit(p[|p| - 1])
    ensures DigitPrefixLength(p + s) == DigitPrefixLength(p)
    decreases |p|
  {
    if IsDigit(p[0]) {
      assert (p + s)[1..] == p[1..] + s;
      DigitPrefixStopsInside(p[1..], s);
    }
  }

  lemma {:induction false} DigitPrefixStopsBeforeEnd(p: string)
    requires |p| > 0 && !IsDigit(p[|p| - 1])
    ensures DigitPrefixLength(p) < |p|
    decreases |p|
  {
    if IsDigit(p[0]) {
      DigitPrefixStopsBeforeEnd(p[1..]);
    }
  }

  lemma {:induction false} DigitPrefixOfRun(x: string, q: string)
    requires AllDigits(x)
    requires q == [] || !IsDigit(q[0])
    ensures DigitPrefixLength(x + q) == |x|
    decreases |x|
  {
    if x != [] {
      assert (x + q)[1..] == x[1..] + q;
      DigitPrefixOfRun(x[1..], q);
    }
  }

  /** A string that does not end in a digit is chunked independently of what follows it. */
  lemma {:induction false} ChunksAppend(p: string, s: string)
    requires p == [] || !IsDigit(p[|p| - 1])
    ensures Chunks(p + s) == Chunks(p) + Chunks(s)
    decreases |p|
  {
    if p == [] {
      assert p + s == s;
    } else if IsDigit(p[0]) {
      var n := DigitPrefixLength(p);
      DigitPrefixStopsBeforeEnd(p);
      assert p[n..][|p[n..]| - 1] == p[|p| - 1];
      ChunksAppend(p[n..], s);
      DigitRunStep(p, s);
    } else {
      ChunksAppend(p[1..], s);
      OtherStep(p, s);
    }
  }

  lemma {:induction false} DigitRunStep(p: string, s: string)
    requires p != [] && IsDigit(p[0]) && !IsDigit(p[|p| - 1])
    requires Chunks(p[DigitPrefixLength(p)..] + s) == Chunks(p[DigitPrefixLength(p)..]) + Chunks(s)
    ensures Chunks(p + s) == Chunks(p) + Chunks(s)
  {
    var n := DigitPrefixLength(p);
    var t := p + s;
    DigitPrefixStopsInside(p, s);
    SlicesOfAppend(p, s, n);
    DigitRunUnfold(t);
    DigitRunUnfold(p);
    AppendAssoc([Digits(p[..n])], Chunks(p[n..]), Chunks(s));
  }

  lemma DigitRunUnfold(t: string)
    requires t != [] && IsDigit(t[0])
    ensures Chunks(t) == [Digits(t[..DigitPrefixLength(t)])] + Chunks(t[DigitPrefixLength(t)..])
  {
  }

  lemma {:induction false} SlicesOfAppend<T>(p: seq<T>, s: seq<T>, n: nat)
    requires 0 < n <= |p|
    ensures (p + s)[0] == p[0]
    ensures (p + s)[..n] == p[..n] && (p + s)[n..] == p[n..] + s
  {
  }

  lemma AppendAssoc<T>(a: seq<T>, b: seq<T>, c: seq<T>)
    ensures a + (b + c) == (a + b) + c
  {
  }

  lemma {:induction false} OtherStep(p: string, s: string)
    requires p != [] && !IsDigit(p[0])
    requires Chunks(p[1..] + s) == Chunks(p[1..]) + Chunks(s)
    ensures Chunks(p + s) == Chunks(p) + Chunks(s)
  {
    var t := p + s;
    assert t[0] == p[0] && t[1..] == p[1..] + s;
    OtherUnfold(t);
    OtherUnfold(p);
    AppendAssoc([Other(p[0])], Chunks(p[1..]), Chunks(s));
  }

  lemma OtherUnfold(t: string)
    requires t != [] && !IsDigit(t[0])
    ensures Chunks(t) == [Other(t[0])] + Chunks(t[1..])
  {
  }

  lemma {:induction false} DigitRunChunk(x: string, q: string)
    requires |x| > 0 && AllDigits(x)
    requires q == [] || !IsDigit(q[0])
    ensures Chunks(x + q) == [Digits(x)] + Chunks(q)
  {
    DigitPrefixOfRun(x, q);
    assert (x + q)[..|x|] == x;
    assert (x + q)[|x|..] == q;
  }

  lemma {:induction false} RanksAppend(a: seq<Chunk>, b: seq<Chunk>)
    ensures Ranks(a + b) == Ranks(a) + Ranks(b)
    decreases |a|
  {
    if a == [] {
      assert a + b == b;
    } else {
      assert (a + b)[1..] == a[1..] + b;
      RanksAppend(a[1..], b);
    }
  }

  lemma {:induction false} CompareRanksCommonPrefix(k: seq<Rank>, x: seq<Rank>, y: seq<Rank>)
    ensures CompareRanks(k + x, k + y) == CompareRanks(x, y)
    decreases |k|
  {
    if k == [] {
      assert k + x == x && k + y == y;
    } else {
      assert (k + x)[1..] == k[1..] + x && (k + y)[1..] == k[1..] + y;
      CompareRanksCommonPrefix(k[1..], x, y);
    }
  }

  /**
   * Two strings that differ only in one embedded run of digits are ordered by the numeric
   * values of those runs ("host2" before "host10" before "host100").
   */
  lemma {:induction false} NumericRunsCompareByValue(p: string, x: string, y: string, q: string)
    requires p == [] || !IsDigit(p[|p| - 1])
    requires |x| > 0 && AllDigits(x) && |y| > 0 && AllDigits(y)
    requires q == [] || !IsDigit(q[0])
    requires Value(x) < Value(y)
    ensures NatLess(p + x + q, p + y + q)
  {
    var prefix := Ranks(Chunks(p));
    var rx := [RankOf(Digits(x))] + Ranks(Chunks(q));
    var ry := [RankOf(Digits(y))] + Ranks(Chunks(q));
    assert Key(p + x + q) == prefix + rx by {
      RunKey(p, x, q);
    }
    assert Key(p + y + q) == prefix + ry by {
      RunKey(p, y, q);
    }
    CompareRanksCommonPrefix(prefix, rx, ry);
    DigitRankLess(x, y);
    FirstRankDecides(RankOf(Digits(x)), RankOf(Digits(y)), Ranks(Chunks(q)));
  }

  lemma {:induction false} DigitRankLess(x: string, y: string)
    requires Value(x) < Value(y)
    ensures CompareRank(RankOf(Digits(x)), RankOf(Digits(y))) == Less
  {
  }

  lemma {:induction false} FirstRankDecides(a: Rank, b: Rank, rest: seq<Rank>)
    requires CompareRank(a, b) == Less
    ensures CompareRanks([a] + rest, [b] + rest) == Less
  {
    assert ([a] + rest)[0] == a && ([b] + rest)[0] == b;
  }

  /** The rank sequence of a string with one embedded digit run, split around that run. */
  lemma {:induction false} RunKey(p: string, x: string, q: string)
    requires p == [] || !IsDigit(p[|p| - 1])
    requires |x| > 0 && AllDigits(x)
    requires q == [] || !IsDigit(q[0])
    ensures Key(p + x + q) == Ranks(Chunks(p)) + ([RankOf(Digits(x))] + Ranks(Chunks(q)))
  {
    assert p + x + q == p + (x + q);
    ChunksAppend(p, x + q);
    DigitRunChunk(x, q);
    RanksAppend(Chunks(p), [Digits(x)] + Chunks(q));
    RanksAppend([Digits(x)], Chunks(q));
  }

  /** The ordering the repository documents and tests: "file2" before "file10". */
  lemma File2BeforeFile10()
    ensures NatString("file2").Cmp(NatString("file10")) == Less
  {
    assert Value("2") == 2;
    assert Value("10") == 10 by { assert "10"[..1] == "1"; }
    NumericRunsCompareByValue("file", "2", "10", "");
    assert "file" + "2" + "" == "file2" && "file" + "10" + "" == "file10";
  }

  /** The string wrapper used as the key of every ordered store. */
  datatype NatString = NatString(value: string) {

    /** `as_str`: the wrapped string, which wraps back to this key. */
    function AsStr(): (s: string)
      ensures NatString(s) == this
    {
      value
    }

    /**
     * `Ord::cmp`, which delegates to the natural comparison of the wrapped strings; it is
     * Equal exactly for equal keys.
     */
    function Cmp(other: NatString): (r: Ordering)
      ensures r == Equal <==> this == other
    {
      Compare(value, other.value)
    }
  }

  /** `String::from`, for an owned and for a borrowed `NatString` alike. */
  function IntoString(n: NatString): (s: string)
    ensures NatString(s) == n
  {
    n.value
  }

  /** Wrapping a string and converting it back gives the string; `as_str` shows it unchanged. */
  lemma NatStringRoundTrip(s: string)
    ensures IntoString(NatString(s)) == s && NatString(s).AsStr() == s
  {
  }

  /** The ordering of `NatString` agrees with its derived equality, which is string equality. */
  lemma {:induction false} NatStringOrderMatchesEquality(a: NatString, b: NatString)
    ensures a.Cmp(b) == Equal <==> a == b
    ensures a.Cmp(b) == b.Cmp(a).Reverse()
  {
    CompareReverse(b.value, a.value);
  }
}
