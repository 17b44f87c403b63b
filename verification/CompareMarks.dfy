/**
 * Which lines the keys of compare.ts cannot tell apart: every marked line (see Compare) occurs in an output that
 * shares its key with a different one.
 */
module CompareMarks {
  import opened Basics
  import opened Compare

  function Copies(line: string, n: nat): (r: seq<string>)
    ensures |r| == n && (forall c <- r :: c == line) && multiset(r)[line] == n
  {
    if n == 0 then [] else [line] + Copies(line, n - 1)
  }

  lemma {:induction false} PrefixLess(p: string, a: string, b: string)
    requires Less(a, b)
    ensures Less(p + a, p + b)
  {
    if p != [] {
      PrefixLess(p[1..], a, b);
      assert (p + a)[1..] == p[1..] + a && (p + b)[1..] == p[1..] + b;
      assert (p + a)[0] == p[0] == (p + b)[0];
    } else {
      assert p + a == a && p + b == b;
    }
  }

  lemma LongerIsLess(a: string, more: string)
    requires more != []
    ensures Less(a, a + more)
  {
    PrefixLess(a, [], more);
    assert a + [] == a;
  }

  /** A line once, and another n times. */
  lemma TallyOfTwo(x: string, y: string, n: nat)
    requires Less(x, y) && n >= 1
    ensures Key([x] + Copies(y, n)) == "1" + [BETWEEN] + x + Mark(n) + y
    ensures x in [x] + Copies(y, n) && forall c <- [x] + Copies(y, n) :: c == x || c == y
  {
    var e2 := [Counted(y, n)];
    var es := [Counted(x, 1)] + e2;
    TwoEntries(x, y, n);
    KeyOfTally([x] + Copies(y, n), es);
    JoinedParts(es);
    assert es[1..] == e2 && e2[1..] == [];
    assert Decimal(1) == "1";
    hide Key, Mark, Tallies, Less, Copies;
    assert Rest(e2) == Mark(n) + y + [];
    Regroup1("1" + [BETWEEN], x, Mark(n), y);
  }

  lemma Regroup1(one: string, x: string, m: string, y: string)
    ensures one + (x + (m + y + [])) == one + x + m + y
  {
    assert m + y + [] == m + y;
  }

  lemma TwoEntries(x: string, y: string, n: nat)
    requires Less(x, y) && n >= 1
    ensures Tallies([Counted(x, 1)] + [Counted(y, n)], [x] + Copies(y, n))
  {
    LessIrreflexive(x);
    var copies := Copies(y, n);
    assert multiset([x] + copies) == multiset{x} + multiset(copies);
    assert x !in copies && multiset(copies)[x] == 0 && copies[0] == y;
    hide Less, Copies;
    assert [Counted(x, 1)] + [Counted(y, n)] == [Counted(x, 1), Counted(y, n)];
  }

  lemma TallyOfOne(x: string)
    ensures Key([x]) == "1" + [BETWEEN] + x
  {
    var es := [Counted(x, 1)];
    assert Tallies(es, [x]);
    KeyOfTally([x], es);
    JoinedParts(es);
    assert es[1..] == [] && x + Rest([]) == x;
    assert Decimal(1) == "1";
  }

  lemma TallyOfThree(x: string, y: string, z: string)
    requires Less(x, y) && Less(y, z)
    ensures Key([x, y, z, z]) == "1" + [BETWEEN] + x + Mark(1) + y + Mark(2) + z
  {
    var e2, e3 := [Counted(y, 1), Counted(z, 2)], [Counted(z, 2)];
    var es := [Counted(x, 1)] + e2;
    ThreeEntries(x, y, z);
    KeyOfTally([x, y, z, z], es);
    JoinedParts(es);
    assert es[1..] == e2 && e2[1..] == e3 && e3[1..] == [];
    assert Decimal(1) == "1";
    hide Key, Mark, Tallies, Less;
    assert Rest(e3) == Mark(2) + z + [];
    assert Rest(e2) == Mark(1) + y + Rest(e3);
    Regroup3("1" + [BETWEEN], x, Mark(1), y, Mark(2), z);
  }

  lemma Regroup3(one: string, x: string, m: string, y: string, n: string, z: string)
    ensures one + (x + (m + y + (n + z + []))) == one + x + m + y + n + z
  {
    assert n + z + [] == n + z;
    assert m + y + (n + z) == m + y + n + z;
    assert x + (m + y + n + z) == x + m + y + n + z;
  }

  lemma ThreeEntries(x: string, y: string, z: string)
    requires Less(x, y) && Less(y, z)
    ensures Tallies([Counted(x, 1)] + [Counted(y, 1), Counted(z, 2)], [x, y, z, z])
  {
    hide Less;
    LessTransitive(x, y, z);
    LessIrreflexive(x);
    LessIrreflexive(y);
    var lines := [x, y, z, z];
    assert lines[0] == x && lines[1] == y && lines[2] == z;
    assert [Counted(x, 1)] + [Counted(y, 1), Counted(z, 2)] == [Counted(x, 1), Counted(y, 1), Counted(z, 2)];
  }

  /** A line that is greater than what follows its mark, alone, reads like two lines. */
  lemma MarkCollidesAlone(u: string, n: nat, v: string)
    requires n >= 1 && Less(u + Mark(n) + v, v)
    ensures var x := u + Mark(n) + v; var b := [u] + Copies(v, n);
            Key([x]) == Key(b) && multiset([x]) != multiset(b)
  {
    var m := Mark(n);
    assert |m| > 0;
    hide Key, Mark, Less, Copies;
    var x := u + m + v;
    StartIsLess(u, m, v);
    LessTransitive(u, x, v);
    TallyOfOne(x);
    TallyOfTwo(u, v, n);
    Regroup2("1" + [BETWEEN], u, m, v);
    assert |u| < |x|;
    SetApart([x], [u] + Copies(v, n), u);
  }

  lemma StartIsLess(u: string, m: string, v: string)
    requires m != []
    ensures Less(u, u + m + v)
  {
    LongerIsLess(u, m + v);
    assert u + (m + v) == u + m + v;
  }

  lemma Regroup2(one: string, u: string, m: string, v: string)
    ensures one + (u + m + v) == one + u + m + v
  {
  }

  lemma SetApart(a: seq<string>, b: seq<string>, line: string)
    requires !(line in a <==> line in b)
    ensures multiset(a) != multiset(b)
  {
    assert (line in a <==> line in multiset(a)) && (line in b <==> line in multiset(b));
  }

  /** Otherwise, among lines around it, its mark can be taken for one of the key's and one of those for its own. */
  lemma MarkCollidesAmongOthers(u: string, n: nat, v: string)
    requires n >= 1 && Less(v, u + Mark(n) + v)
    ensures var x := u + Mark(n) + v; var z := x + "a";
            var a, b := [v, x, z, z], [v + Mark(1) + u] + Copies(v + Mark(2) + z, n);
            Key(a) == Key(b) && multiset(a) != multiset(b)
  {
    MarkLength(n);
    hide Key, Mark, Less, Copies;
    var x := u + Mark(n) + v;
    var z := x + "a";
    var p, q := v + Mark(1) + u, v + Mark(2) + z;
    LongerIsLess(x, "a");
    TallyOfThree(v, x, z);
    SmallerMark(v, u, z);
    TallyOfTwo(p, q, n);
    Regroup("1" + [BETWEEN], v, Mark(1), u, Mark(n), Mark(2), z);
    assert |p| < |z| < |q|;
    assert [v, x, z, z][2] == z;
    SetApart([v, x, z, z], [p] + Copies(q, n), z);
  }

  lemma Regroup(one: string, v: string, m1: string, u: string, m: string, m2: string, z: string)
    ensures one + v + m1 + (u + m + v) + m2 + z == one + (v + m1 + u) + m + (v + m2 + z)
  {
    assert one + v + m1 + (u + m + v) == one + v + m1 + u + m + v;
    assert one + (v + m1 + u) == one + v + m1 + u;
    assert one + v + m1 + u + m + (v + m2 + z) == one + v + m1 + u + m + v + m2 + z;
  }

  lemma MarkLength(n: nat)
    ensures |Mark(n)| >= |Mark(1)| > 0 && |Mark(2)| > 0
  {
    assert Decimal(1) == "1";
  }

  lemma SmallerMark(v: string, u: string, z: string)
    ensures Less(v + Mark(1) + u, v + Mark(2) + z)
  {
    assert Decimal(1) == "1" && Decimal(2) == "2";
    var s, t := Mark(1) + u, Mark(2) + z;
    assert s[0] == t[0] && s[1..][0] == '1' && t[1..][0] == '2';
    PrefixLess(v, s, t);
    assert v + s == v + Mark(1) + u && v + t == v + Mark(2) + z;
  }

  /** Two different outputs that share their key. */
  ghost predicate Collide(a: seq<string>, b: seq<string>) { Key(a) == Key(b) && multiset(a) != multiset(b) }

  lemma CollidesAround(u: string, n: nat, v: string)
    requires n >= 1
    ensures exists a, b :: u + Mark(n) + v in a && Collide(a, b)
  {
    MarkLength(n);
    hide Key, Mark, Less, Copies;
    var x := u + Mark(n) + v;
    LessTotal(x, v);
    if Less(x, v) {
      MarkCollidesAlone(u, n, v);
      var a := [x];
      assert a[0] == x && Collide(a, [u] + Copies(v, n));
    } else {
      assert |x| > |v|;
      MarkCollidesAmongOthers(u, n, v);
      var a := [v, x, x + "a", x + "a"];
      assert a[1] == x && Collide(a, [v + Mark(1) + u] + Copies(v + Mark(2) + (x + "a"), n));
    }
  }

  /**
   * No marked line can be allowed: every one of them occurs in an output that shares its key with
   * another output of different lines.
   */
  lemma EveryMarkCollides(x: string)
    requires Marked(x)
    ensures exists a, b :: x in a && Collide(a, b)
  {
    var i: int, n: nat :| n >= 1 && At(x, i, Mark(n));
    var u, v := x[..i], x[i + |Mark(n)|..];
    assert x == u + Mark(n) + v;
    hide Collide, Mark;
    CollidesAround(u, n, v);
  }

  /** The smallest case: one line with a mark against the two lines it is taken for. */
  lemma NulCollides()
    ensures Collide(["a" + [SEPARATOR] + "1" + [BETWEEN] + "b"], ["a", "b"])
  {
    assert Decimal(1) == "1";
    assert "a" + Mark(1) + "b" == "a" + [SEPARATOR] + "1" + [BETWEEN] + "b";
    assert Copies("b", 1) == ["b"] + Copies("b", 0) == ["b"];
    assert ["a"] + ["b"] == ["a", "b"];
    MarkCollidesAlone("a", 1, "b");
  }
}
