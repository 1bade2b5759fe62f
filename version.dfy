/**
 * Dotted numeric versions such as "1.30.0": splitting on '.', parsing each
 * piece as a decimal number, and ordering two versions component by
 * component (major, minor, patch, ...), the shorter one padded with zeros.
 */
module Version {

  import opened Wrappers

  datatype Ordering = Less | Equal | Greater

  // ---------------------------------------------------------------- numerals

  predicate IsDigit(c: char) {
    '0' <= c <= '9'
  }

  function DigitValue(c: char): (d: nat)
    requires IsDigit(c)
    ensures d < 10
  {
    c as int - '0' as int
  }

  function DigitChar(d: nat): (c: char)
    requires d < 10
    ensures IsDigit(c) && DigitValue(c) == d
  {
    ('0' as int + d) as char
  }

  predicate AllDigits(s: string) {
    forall i | 0 <= i < |s| :: IsDigit(s[i])
  }

  /** A version component: one or more decimal digits (leading zeros allowed). */
  predicate IsNumeral(s: string) {
    |s| > 0 && AllDigits(s)
  }

  /** Decimal value of a digit string, most significant digit first. */
  function NumeralValue(s: string): nat
    requires AllDigits(s)
  {
    if |s| == 0 then 0 else NumeralValue(s[..|s| - 1]) * 10 + DigitValue(s[|s| - 1])
  }

  /** Decimal rendering of `n` without leading zeros; reads back as `n`. */
  function Numeral(n: nat): (s: string)
    ensures IsNumeral(s) && '.' !in s
    ensures NumeralValue(s) == n
  {
    if n < 10 then [DigitChar(n)]
    else
      var init := Numeral(n / 10);
      var s := init + [DigitChar(n % 10)];
      assert s[..|s| - 1] == init;
      s
  }

  // --------------------------------------------------------------- splitting

  /** The pieces of `s` between '.' separators: "1.30.0" gives ["1", "30", "0"]. */
  function Split(s: string): (parts: seq<string>)
    ensures |parts| >= 1
    ensures forall i | 0 <= i < |parts| :: '.' !in parts[i]
  {
    if |s| == 0 then [""]
    else
      var init := Split(s[..|s| - 1]);
      var c := s[|s| - 1];
      if c == '.' then init + [""]
      else init[..|init| - 1] + [init[|init| - 1] + [c]]
  }

  /** The pieces glued back together with '.' between them. */
  function Join(parts: seq<string>): string
    requires |parts| >= 1
  {
    if |parts| == 1 then parts[0]
    else Join(parts[..|parts| - 1]) + "." + parts[|parts| - 1]
  }

  /** Joining the pieces of `s` gives `s` back. */
  lemma {:induction false} JoinSplit(s: string)
    ensures Join(Split(s)) == s
  {
    if |s| > 0 {
      var init := Split(s[..|s| - 1]);
      var c := s[|s| - 1];
      JoinSplit(s[..|s| - 1]);
      if c == '.' {
        assert (init + [""])[..|init|] == init;
      } else {
        var n := |init|;
        var parts := init[..n - 1] + [init[n - 1] + [c]];
        if n > 1 {
          assert parts[..n - 1] == init[..n - 1];
          assert init[..n - 1][..n - 2] == init[..n - 2];
        }
      }
      assert s == s[..|s| - 1] + [c];
    }
  }

  /** One more character either starts a new piece ('.') or extends the last one. */
  lemma SplitSnoc(s: string, c: char)
    ensures var p := Split(s);
      Split(s + [c]) == if c == '.' then p + [""] else p[..|p| - 1] + [p[|p| - 1] + [c]]
  {
    assert (s + [c])[..|s|] == s;
  }

  /** Appending text without a '.' extends the last piece. */
  lemma {:induction false} SplitExtend(s: string, t: string)
    requires '.' !in t
    ensures var p := Split(s); Split(s + t) == p[..|p| - 1] + [p[|p| - 1] + t]
  {
    var p := Split(s);
    if |t| == 0 {
      assert s + t == s;
      assert p[|p| - 1] + t == p[|p| - 1];
      assert p[..|p| - 1] + [p[|p| - 1]] == p;
    } else {
      var t' := t[..|t| - 1];
      var c := t[|t| - 1];
      assert t == t' + [c];
      assert '.' !in t';
      SplitExtend(s, t');
      var q := Split(s + t');
      assert s + t == (s + t') + [c];
      SplitSnoc(s + t', c);
      assert q[..|q| - 1] == p[..|p| - 1];
      assert (p[|p| - 1] + t') + [c] == p[|p| - 1] + t;
    }
  }

  /** Appending '.' and then a dot-free text adds that text as a new last piece. */
  lemma SplitDotThen(s: string, t: string)
    requires '.' !in t
    ensures Split(s + "." + t) == Split(s) + [t]
  {
    var sd := s + ".";
    SplitSnoc(s, '.');
    assert s + "." + t == sd + t;
    SplitExtend(sd, t);
    var p := Split(sd);
    assert p == Split(s) + [""];
    assert p[..|p| - 1] == Split(s);
    assert p[|p| - 1] + t == t;
  }

  /** Splitting the join of dot-free pieces gives the pieces back. */
  lemma {:induction false} SplitJoin(parts: seq<string>)
    requires |parts| >= 1
    requires forall i | 0 <= i < |parts| :: '.' !in parts[i]
    ensures Split(Join(parts)) == parts
  {
    var n := |parts|;
    if n == 1 {
      SplitExtend("", parts[0]);
      assert "" + parts[0] == parts[0];
    } else {
      SplitJoin(parts[..n - 1]);
      SplitDotThen(Join(parts[..n - 1]), parts[n - 1]);
      assert parts[..n - 1] + [parts[n - 1]] == parts;
    }
  }

  // ----------------------------------------------------------------- parsing

  /** Parses every piece as a numeral; fails when any piece is not one. */
  function ParseParts(parts: seq<string>): (r: Option<seq<nat>>)
    ensures r.Some? <==> forall i | 0 <= i < |parts| :: IsNumeral(parts[i])
    ensures r.Some? ==> |r.value| == |parts|
    ensures r.Some? ==> forall i | 0 <= i < |parts| :: r.value[i] == NumeralValue(parts[i])
  {
    if |parts| == 0 then Some([])
    else if !IsNumeral(parts[0]) then None
    else
      match ParseParts(parts[1..])
      case None => None
      case Some(rest) => Some([NumeralValue(parts[0])] + rest)
  }

  /**
   * The components of a dotted version string, or None when some piece is
   * empty or holds a character other than a digit.
   */
  function Parse(s: string): (r: Option<seq<nat>>)
    ensures r.Some? ==> |r.value| == |Split(s)| >= 1
    ensures r.Some? <==> forall piece | piece in Split(s) :: IsNumeral(piece)
    ensures r.Some? ==> forall i | 0 <= i < |r.value| ::
      IsNumeral(Split(s)[i]) && r.value[i] == NumeralValue(Split(s)[i])
  {
    ParseParts(Split(s))
  }

  predicate WellFormed(s: string) {
    Parse(s).Some?
  }

  /** The canonical dotted rendering of a non-empty component list. */
  function Render(v: seq<nat>): (s: string)
    requires |v| >= 1
  {
    Join(seq(|v|, i requires 0 <= i < |v| => Numeral(v[i])))
  }

  /** Parsing a rendered version gives back its components. */
  lemma ParseRender(v: seq<nat>)
    requires |v| >= 1
    ensures Parse(Render(v)) == Some(v)
  {
    var parts := seq(|v|, i requires 0 <= i < |v| => Numeral(v[i]));
    SplitJoin(parts);
    var r := ParseParts(parts);
    assert r.Some?;
    assert r.value == v;
  }

  /**
   * Appending the digit '1' to a well-formed version string (the way a
   * version that cannot match is built) keeps it well formed and turns the
   * last component `x` into `10 * x + 1`.
   */
  lemma AppendOne(s: string)
    requires WellFormed(s)
    ensures WellFormed(s + "1")
    ensures var v := Parse(s).value; var w := Parse(s + "1").value;
      |w| == |v| && w[..|v| - 1] == v[..|v| - 1] && w[|v| - 1] == 10 * v[|v| - 1] + 1
  {
    var p := Split(s);
    SplitExtend(s, "1");
    var q := Split(s + "1");
    var n := |p|;
    assert q == p[..n - 1] + [p[n - 1] + "1"];
    var last := p[n - 1] + "1";
    assert IsNumeral(p[n - 1]) by {
      assert p[n - 1] in p;
    }
    assert last[..|last| - 1] == p[n - 1];
    assert NumeralValue(last) == NumeralValue(p[n - 1]) * 10 + 1;
    forall i | 0 <= i < n
      ensures IsNumeral(q[i])
      ensures i < n - 1 ==> q[i] == p[i]
    {
      if i < n - 1 {
        assert q[i] == p[i];
        assert p[i] in p;
      }
    }
    var v := ParseParts(p).value;
    var w := ParseParts(q);
    assert w.Some?;
    assert Parse(s) == Some(v) && Parse(s + "1") == w;
    assert w.value[..n - 1] == v[..n - 1];
  }

  /** A three-piece version "a.b.c" parses into the values of its three numerals. */
  lemma ParseDotted(a: string, b: string, c: string)
    requires IsNumeral(a) && IsNumeral(b) && IsNumeral(c)
    ensures Parse(a + "." + b + "." + c) == Some([NumeralValue(a), NumeralValue(b), NumeralValue(c)])
  {
    var parts := [a, b, c];
    assert '.' !in a && '.' !in b && '.' !in c by {
      assert forall i | 0 <= i < |a| :: IsDigit(a[i]);
    }
    var p2 := parts[..2];
    assert p2 == [a, b];
    assert p2[..1] == [a];
    assert Join(p2) == a + "." + b;
    assert Join(parts) == Join(p2) + "." + c;
    SplitJoin(parts);
    assert forall i | 0 <= i < 3 :: IsNumeral(parts[i]);
    var r := ParseParts(parts);
    assert r.value == [NumeralValue(a), NumeralValue(b), NumeralValue(c)];
  }

  // -------------------------------------------------------------- comparison

  /** Component `i` of `v`, zero past its end. */
  function Component(v: seq<nat>, i: nat): nat {
    if i < |v| then v[i] else 0
  }

  /** `v` without its first component. */
  function Rest(v: seq<nat>): seq<nat> {
    if |v| == 0 then [] else v[1..]
  }

  /** The two versions agree on every component before position `k`. */
  ghost predicate AgreeBelow(a: seq<nat>, b: seq<nat>, k: nat) {
    forall i: nat | i < k :: Component(a, i) == Component(b, i)
  }

  /** `a` comes first because position `k` is the first where the two differ and `a` is smaller there. */
  ghost predicate SmallerAt(a: seq<nat>, b: seq<nat>, k: nat) {
    AgreeBelow(a, b, k) && Component(a, k) < Component(b, k)
  }

  /** Reference meaning of "older": at the first position where they differ, `a` is smaller. */
  ghost predicate Precedes(a: seq<nat>, b: seq<nat>) {
    exists k: nat :: SmallerAt(a, b, k)
  }

  /** Reference meaning of equality: every component agrees, zeros filling the shorter one. */
  ghost predicate PaddedEqual(a: seq<nat>, b: seq<nat>) {
    forall i: nat :: Component(a, i) == Component(b, i)
  }

  lemma ComponentRest(v: seq<nat>, i: nat)
    ensures Component(Rest(v), i) == Component(v, i + 1)
  {
  }

  /** Agreement below `k + 1` is agreement at 0 and agreement of the rests below `k`. */
  lemma AgreeBelowStep(a: seq<nat>, b: seq<nat>, k: nat)
    ensures AgreeBelow(a, b, k + 1) <==>
      Component(a, 0) == Component(b, 0) && AgreeBelow(Rest(a), Rest(b), k)
  {
    if AgreeBelow(a, b, k + 1) {
      forall i: nat | i < k ensures Component(Rest(a), i) == Component(Rest(b), i) {
        ComponentRest(a, i);
        ComponentRest(b, i);
      }
    }
    if Component(a, 0) == Component(b, 0) && AgreeBelow(Rest(a), Rest(b), k) {
      forall i: nat | i < k + 1 ensures Component(a, i) == Component(b, i) {
        if i > 0 {
          ComponentRest(a, i - 1);
          ComponentRest(b, i - 1);
        }
      }
    }
  }

  /** Padded equality is agreement of the first components and padded equality of the rests. */
  lemma PaddedEqualStep(a: seq<nat>, b: seq<nat>)
    ensures PaddedEqual(a, b) <==>
      Component(a, 0) == Component(b, 0) && PaddedEqual(Rest(a), Rest(b))
  {
    if PaddedEqual(a, b) {
      forall i: nat ensures Component(Rest(a), i) == Component(Rest(b), i) {
        ComponentRest(a, i);
        ComponentRest(b, i);
      }
    }
    if Component(a, 0) == Component(b, 0) && PaddedEqual(Rest(a), Rest(b)) {
      forall i: nat ensures Component(a, i) == Component(b, i) {
        if i > 0 {
          ComponentRest(a, i - 1);
          ComponentRest(b, i - 1);
        }
      }
    }
  }

  /** `a` precedes `b` when its first component is smaller, or the firsts agree and its rest precedes. */
  lemma PrecedesStep(a: seq<nat>, b: seq<nat>)
    ensures Precedes(a, b) <==>
      Component(a, 0) < Component(b, 0)
      || (Component(a, 0) == Component(b, 0) && Precedes(Rest(a), Rest(b)))
  {
    if Precedes(a, b) {
      var k: nat :| SmallerAt(a, b, k);
      if k > 0 {
        AgreeBelowStep(a, b, k - 1);
        ComponentRest(a, k - 1);
        ComponentRest(b, k - 1);
        assert SmallerAt(Rest(a), Rest(b), k - 1);
      }
    }
    if Component(a, 0) < Component(b, 0) {
      assert SmallerAt(a, b, 0);
    }
    if Component(a, 0) == Component(b, 0) && Precedes(Rest(a), Rest(b)) {
      var k: nat :| SmallerAt(Rest(a), Rest(b), k);
      AgreeBelowStep(a, b, k);
      ComponentRest(a, k);
      ComponentRest(b, k);
      assert SmallerAt(a, b, k + 1);
    }
  }

  /**
   * Ordering of two versions, scanning components from the first and
   * padding the shorter with zeros: Less exactly when `a` is smaller at the
   * first position where the two differ, Equal exactly when no position
   * differs.
   */
  function Compare(a: seq<nat>, b: seq<nat>): (r: Ordering)
    ensures r == Less <==> Precedes(a, b)
    ensures r == Equal <==> PaddedEqual(a, b)
    decreases |a| + |b|
  {
    if |a| == 0 && |b| == 0 then
      assert !SmallerAt(a, b, 0);
      Equal
    else
      PaddedEqualStep(a, b);
      PrecedesStep(a, b);
      if Component(a, 0) < Component(b, 0) then Less
      else if Component(a, 0) > Component(b, 0) then Greater
      else Compare(Rest(a), Rest(b))
  }

  function Flip(o: Ordering): Ordering {
    match o
    case Less => Greater
    case Equal => Equal
    case Greater => Less
  }

  /** Swapping the arguments flips the ordering. */
  lemma {:induction false} CompareFlip(a: seq<nat>, b: seq<nat>)
    ensures Compare(b, a) == Flip(Compare(a, b))
    decreases |a| + |b|
  {
    if |a| == 0 && |b| == 0 {
    } else if Component(a, 0) != Component(b, 0) {
    } else {
      CompareFlip(Rest(a), Rest(b));
    }
  }

  /** `actual` is at least `bound`: it does not come first at their first difference. */
  predicate AtLeast(actual: seq<nat>, bound: seq<nat>): (r: bool)
    ensures r <==> !Precedes(actual, bound)
  {
    Compare(actual, bound) != Less
  }

  /** `actual` is at most `bound`: `bound` does not come first at their first difference. */
  predicate AtMost(actual: seq<nat>, bound: seq<nat>): (r: bool)
    ensures r <==> !Precedes(bound, actual)
  {
    CompareFlip(actual, bound);
    Compare(actual, bound) != Greater
  }

  /** `actual` equals `bound` once the shorter is padded with zeros. */
  predicate Same(actual: seq<nat>, bound: seq<nat>): (r: bool)
    ensures r <==> PaddedEqual(actual, bound)
    ensures r <==> AtLeast(actual, bound) && AtMost(actual, bound)
  {
    Compare(actual, bound) == Equal
  }

  /** The ordering is transitive. */
  lemma {:induction false} CompareTransitive(a: seq<nat>, b: seq<nat>, c: seq<nat>, o: Ordering)
    requires o != Equal
    requires Compare(a, b) in {o, Equal} && Compare(b, c) in {o, Equal}
    ensures Compare(a, c) in {o, Equal}
    ensures Compare(a, c) == Equal ==> Compare(a, b) == Equal && Compare(b, c) == Equal
    decreases |a| + |b| + |c|
  {
    if |a| == 0 && |b| == 0 && |c| == 0 {
    } else if Component(a, 0) == Component(b, 0) == Component(c, 0) {
      CompareTransitive(Rest(a), Rest(b), Rest(c), o);
    }
  }

  /** Every version is equal to itself. */
  lemma {:induction false} CompareReflexive(a: seq<nat>)
    ensures Compare(a, a) == Equal
    decreases |a|
  {
    if |a| > 0 {
      CompareReflexive(Rest(a));
    }
  }

  /** Trailing zero components do not matter: 1.0 is the same version as 1.0.0. */
  lemma TrailingZero(a: seq<nat>)
    ensures Same(a, a + [0])
  {
    forall i: nat ensures Component(a, i) == Component(a + [0], i) {
    }
  }
}
