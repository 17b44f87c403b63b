/**
 * groupBySignature of compare.ts: targets that print the same lines form a class, the largest class is the
 * reference, and everyone else is explained against it. The loops compute Groups; what a report says is
 * stated apart from them (Reports).
 */
module CompareGroups {
  import opened Basics
  import opened Compare

  // ----- buckets -----

  datatype Target = Target(name: string, ok: bool, lines: seq<string>)

  /** One value of the map of buckets, in order of insertion. */
  datatype Bucket = Bucket(key: string, lines: seq<string>, members: seq<Target>)

  /** File a target under its key. */
  function Place(buckets: seq<Bucket>, t: Target): seq<Bucket> {
    if buckets == [] then [Bucket(Key(t.lines), t.lines, [t])]
    else if buckets[0].key == Key(t.lines) then [buckets[0].(members := buckets[0].members + [t])] + buckets[1..]
    else [buckets[0]] + Place(buckets[1..], t)
  }

  function Buckets(ok: seq<Target>): seq<Bucket> {
    if ok == [] then [] else Place(Buckets(ok[..|ok| - 1]), ok[|ok| - 1])
  }

  function KeyOf(t: Target): string { Key(t.lines) }

  /** The targets with this key, in order. */
  function WithKey(ok: seq<Target>, key: string): seq<Target> { Filter(ok, (t: Target) => KeyOf(t) == key) }

  /** A bucket holds exactly the targets with its key, and shows the lines of the first. */
  ghost predicate BucketOk(b: Bucket, ok: seq<Target>) {
    b.members != [] && b.members == WithKey(ok, b.key) && b.lines == b.members[0].lines && Key(b.lines) == b.key
  }

  predicate HasKey(buckets: seq<Bucket>, key: string) { exists k :: 0 <= k < |buckets| && buckets[k].key == key }

  ghost predicate Partition(buckets: seq<Bucket>, ok: seq<Target>) {
    (forall i, k :: 0 <= i < k < |buckets| ==> buckets[i].key != buckets[k].key) &&
    (forall k :: 0 <= k < |buckets| ==> BucketOk(buckets[k], ok)) &&
    (forall i :: 0 <= i < |ok| ==> HasKey(buckets, KeyOf(ok[i])))
  }

  lemma WithKeyAppend(ok: seq<Target>, t: Target, key: string)
    ensures WithKey(ok + [t], key) == WithKey(ok, key) + if KeyOf(t) == key then [t] else []
  {
    FilterAppend(ok, [t], (t: Target) => KeyOf(t) == key);
    hide Key;
    assert Filter([t], (t: Target) => KeyOf(t) == key) == if KeyOf(t) == key then [t] else [];
  }

  lemma BucketGrows(b: Bucket, ok: seq<Target>, t: Target)
    requires BucketOk(b, ok)
    ensures BucketOk(if b.key == KeyOf(t) then b.(members := b.members + [t]) else b, ok + [t])
  {
    WithKeyAppend(ok, t, b.key);
    hide Key, WithKey;
  }

  lemma NewBucket(ok: seq<Target>, t: Target)
    requires forall i :: 0 <= i < |ok| ==> KeyOf(ok[i]) != KeyOf(t)
    ensures BucketOk(Bucket(KeyOf(t), t.lines, [t]), ok + [t])
  {
    WithKeyAppend(ok, t, KeyOf(t));
    NobodyYet(ok, KeyOf(t));
    hide WithKey;
  }

  lemma {:induction false} NobodyYet(ok: seq<Target>, key: string)
    requires forall i :: 0 <= i < |ok| ==> KeyOf(ok[i]) != key
    ensures WithKey(ok, key) == []
  {
    hide Key;
    if ok != [] {
      NobodyYet(ok[1..], key);
    }
  }

  /** Where a target is filed: in the bucket of its key, or in a new one at the end. */
  lemma {:induction false} PlaceChanges(buckets: seq<Bucket>, t: Target)
    ensures !HasKey(buckets, KeyOf(t)) ==> Place(buckets, t) == buckets + [Bucket(KeyOf(t), t.lines, [t])]
    ensures HasKey(buckets, KeyOf(t)) ==> FiledAt(buckets, t, FirstWith(buckets, KeyOf(t)))
  {
    hide Key;
    if buckets != [] {
      var rest := buckets[1..];
      assert buckets == [buckets[0]] + rest;
      if buckets[0].key != KeyOf(t) {
        PlaceChanges(rest, t);
      }
      HasKeyCons(buckets[0], rest, KeyOf(t));
      hide HasKey, KeyOf;
    }
  }

  lemma HasKeyCons(b: Bucket, rest: seq<Bucket>, key: string)
    ensures HasKey([b] + rest, key) <==> b.key == key || HasKey(rest, key)
  {
    var all := [b] + rest;
    if HasKey(all, key) {
      var k :| 0 <= k < |all| && all[k].key == key;
      assert k > 0 ==> rest[k - 1].key == key;
    }
    if b.key == key { assert all[0].key == key; }
    if HasKey(rest, key) {
      var k :| 0 <= k < |rest| && rest[k].key == key;
      assert all[k + 1].key == key;
    }
  }

  function FirstWith(buckets: seq<Bucket>, key: string): nat {
    if buckets == [] || buckets[0].key == key then 0 else 1 + FirstWith(buckets[1..], key)
  }

  predicate FiledAt(buckets: seq<Bucket>, t: Target, k: nat) {
    k < |buckets| && buckets[k].key == KeyOf(t) &&
      Place(buckets, t) == buckets[k := buckets[k].(members := buckets[k].members + [t])]
  }

  lemma PlaceKeeps(buckets: seq<Bucket>, ok: seq<Target>, t: Target)
    requires Partition(buckets, ok)
    ensures Partition(Place(buckets, t), ok + [t])
  {
    PlaceChanges(buckets, t);
    var r := Place(buckets, t);
    hide Key, Place, BucketOk, WithKey, KeyOf, FirstWith;
    forall k | 0 <= k < |buckets|
      ensures var b := buckets[k]; BucketOk(if b.key == KeyOf(t) then b.(members := b.members + [t]) else b, ok + [t])
    {
      BucketGrows(buckets[k], ok, t);
    }
    if !HasKey(buckets, KeyOf(t)) {
      forall i | 0 <= i < |ok| ensures KeyOf(ok[i]) != KeyOf(t) { assert HasKey(buckets, KeyOf(ok[i])); }
      NewBucket(ok, t);
      assert r[|buckets|].key == KeyOf(t);
    }
    forall key | HasKey(buckets, key) ensures HasKey(r, key) {
      var k :| 0 <= k < |buckets| && buckets[k].key == key;
      assert r[k].key == key;
    }
    assert HasKey(r, KeyOf(t));
  }

  /** Every ok target is in exactly one bucket: the one of its key, which holds exactly its peers in order. */
  lemma {:induction false} BucketsPartition(ok: seq<Target>)
    ensures Partition(Buckets(ok), ok)
    decreases |ok|
  {
    hide Partition, Place;
    if ok == [] {
      NoPartition();
    } else {
      var front, last := ok[..|ok| - 1], ok[|ok| - 1];
      BucketsPartition(front);
      PlaceKeeps(Buckets(front), front, last);
      assert ok == front + [last];
    }
  }

  lemma NoPartition()
    ensures Partition([], [])
  {
  }

  // ----- counting the classes -----

  function Elements<T>(s: seq<T>): set<T> { set x <- s :: x }

  lemma {:induction false} SetSize<T>(s: seq<T>)
    requires NoDuplicates(s)
    ensures |Elements(s)| == |s|
    decreases |s|
  {
    if s != [] {
      var front, last := s[..|s| - 1], s[|s| - 1];
      SetSize(front);
      assert s == front + [last];
      assert last !in front;
      forall x ensures x in s <==> x in front || x == last {}
      assert Elements(s) == Elements(front) + {last};
    }
  }

  function Classes(ok: seq<Target>): set<multiset<string>> { set t <- ok :: multiset(t.lines) }

  function BucketClasses(buckets: seq<Bucket>): (r: seq<multiset<string>>)
    ensures |r| == |buckets| && forall k :: 0 <= k < |r| ==> r[k] == multiset(buckets[k].lines)
  {
    seq(|buckets|, k requires 0 <= k < |buckets| => multiset(buckets[k].lines))
  }

  /** The number of buckets is the number of different multisets of lines among the ok targets. */
  lemma DistinctCountsClasses(ok: seq<Target>)
    requires forall t <- ok :: MarkFree(t.lines)
    ensures |Buckets(ok)| == |Classes(ok)|
  {
    BucketsPartition(ok);
    var buckets, classes := Buckets(ok), BucketClasses(Buckets(ok));
    hide WithKey, Key, Buckets, Partition;
    ClassesDiffer(buckets, ok);
    SetSize(classes);
    forall m ensures m in Classes(ok) <==> m in classes {
      if m in Classes(ok) {
        var t :| t in ok && m == multiset(t.lines);
        ClassHasBucket(buckets, ok, t);
      }
      if k :| 0 <= k < |classes| && classes[k] == m {
        FirstMember(buckets, ok, k);
      }
    }
    assert Elements(classes) == Classes(ok);
  }

  lemma FirstMember(buckets: seq<Bucket>, ok: seq<Target>, k: nat)
    requires Partition(buckets, ok) && k < |buckets|
    ensures var b := buckets[k];
            b.members != [] && b.members[0] in ok && b.lines == b.members[0].lines &&
            Key(b.lines) == b.key
  {
    assert BucketOk(buckets[k], ok);
    HasFirst(buckets[k].members);
    hide Key;
  }

  lemma ClassesDiffer(buckets: seq<Bucket>, ok: seq<Target>)
    requires Partition(buckets, ok) && forall t <- ok :: MarkFree(t.lines)
    ensures NoDuplicates(BucketClasses(buckets))
  {
    hide Key, BucketOk;
    forall i, k | 0 <= i < k < |buckets| ensures multiset(buckets[i].lines) != multiset(buckets[k].lines) {
      FirstMember(buckets, ok, i);
      FirstMember(buckets, ok, k);
      KeyIffMultiset(buckets[i].lines, buckets[k].lines);
    }
  }

  lemma ClassHasBucket(buckets: seq<Bucket>, ok: seq<Target>, t: Target)
    requires Partition(buckets, ok) && t in ok && forall t <- ok :: MarkFree(t.lines)
    ensures multiset(t.lines) in BucketClasses(buckets)
  {
    hide Key, BucketOk;
    var i :| 0 <= i < |ok| && ok[i] == t;
    assert HasKey(buckets, KeyOf(ok[i]));
    var k :| 0 <= k < |buckets| && buckets[k].key == KeyOf(t);
    FirstMember(buckets, ok, k);
    KeyIffMultiset(buckets[k].lines, t.lines);
    assert BucketClasses(buckets)[k] == multiset(t.lines);
  }

  // ----- the majority and the outliers -----

  /** Keep a list ordered by size, largest first; equals keep their order, as in a stable sort. */
  function InsertBySize(b: Bucket, bs: seq<Bucket>): seq<Bucket> {
    if bs == [] || |b.members| > |bs[0].members| then [b] + bs else [bs[0]] + InsertBySize(b, bs[1..])
  }

  function SortBySize(bs: seq<Bucket>): seq<Bucket> {
    if bs == [] then [] else InsertBySize(bs[|bs| - 1], SortBySize(bs[..|bs| - 1]))
  }

  datatype Outlier = Outlier(target: string, missing: seq<string>, extra: seq<string>)

  datatype Group = Group(signature: seq<string>, outliers: seq<Outlier>)

  /** Each line that occurs more often in a than in b, once. */
  ghost predicate Surplus(shown: seq<string>, a: seq<string>, b: seq<string>) {
    NoDuplicates(shown) && forall x :: x in shown <==> multiset(a)[x] > multiset(b)[x]
  }

  /** An outlier names the target, what it lacks of the reference, and what it has beyond it. */
  ghost predicate Explains(o: Outlier, reference: seq<string>, t: Target) {
    o.target == t.name && Surplus(o.missing, reference, t.lines) && Surplus(o.extra, t.lines, reference)
  }

  function Against(reference: seq<string>, t: Target): Outlier {
    Outlier(t.name, Dedupe(Diff(reference, t.lines)), Dedupe(Diff(t.lines, reference)))
  }

  lemma DiffIsSurplus(a: seq<string>, b: seq<string>)
    ensures Surplus(Dedupe(Diff(a, b)), a, b)
  {
    DedupeIsExact(Diff(a, b));
    DiffIsDifference(a, b);
    forall x ensures x in Diff(a, b) <==> multiset(a)[x] > multiset(b)[x] {
      assert x in Diff(a, b) <==> x in multiset(Diff(a, b));
    }
  }

  lemma AgainstExplains(reference: seq<string>, t: Target)
    ensures Explains(Against(reference, t), reference, t)
  {
    DiffIsSurplus(reference, t.lines);
    DiffIsSurplus(t.lines, reference);
    hide Surplus, Dedupe, Diff;
  }

  method DiffAgainst(reference: seq<string>, t: Target) returns (o: Outlier)
    ensures o == Against(reference, t) && Explains(o, reference, t)
  {
    AgainstExplains(reference, t);
    hide Explains, Dedupe, Diff;
    var missing := MultisetDifference(reference, t.lines);
    var extra := MultisetDifference(t.lines, reference);
    var shownMissing := DedupeStable(missing);
    var shownExtra := DedupeStable(extra);
    o := Outlier(t.name, shownMissing, shownExtra);
  }

  function Outliers(reference: seq<string>, ts: seq<Target>): (r: seq<Outlier>)
    ensures |r| == |ts| && forall i :: 0 <= i < |r| ==> r[i] == Against(reference, ts[i])
  {
    seq(|ts|, i requires 0 <= i < |ts| => Against(reference, ts[i]))
  }

  /** The ok targets that do not have the key of the reference. */
  function Deviating(ok: seq<Target>, key: string): seq<Target> { Filter(ok, (t: Target) => KeyOf(t) != key) }

  function OkTargets(targets: seq<Target>): seq<Target> { Filter(targets, (t: Target) => t.ok) }

  function MinorityGroups(reference: seq<string>, buckets: seq<Bucket>): seq<Group> {
    seq(|buckets|, i requires 0 <= i < |buckets| =>
        Group(Dedupe(buckets[i].lines), Outliers(reference, buckets[i].members)))
  }

  function Groups(targets: seq<Target>): (nat, seq<Group>) {
    GroupsOf(OkTargets(targets), SortBySize(Buckets(OkTargets(targets))))
  }

  /** The blocks for buckets in order of size: the majority with everyone who deviates, then the others. */
  function GroupsOf(ok: seq<Target>, sorted: seq<Bucket>): (nat, seq<Group>) {
    if sorted == [] then (0, [])
    else
      var reference := sorted[0].lines;
      (|sorted|, [Group(Dedupe(reference), Outliers(reference, Deviating(ok, Key(reference))))] +
       MinorityGroups(reference, sorted[1..]))
  }

  method DiffAll(reference: seq<string>, ts: seq<Target>) returns (os: seq<Outlier>)
    ensures os == Outliers(reference, ts)
  {
    os := [];
    for i := 0 to |ts|
      invariant |os| == i && forall k :: 0 <= k < i ==> os[k] == Against(reference, ts[k])
    {
      var o := DiffAgainst(reference, ts[i]);
      os := os + [o];
    }
  }

  /** The blocks of the smaller groups. */
  method DescribeMinorities(reference: seq<string>, buckets: seq<Bucket>) returns (groups: seq<Group>)
    ensures groups == MinorityGroups(reference, buckets)
  {
    groups := [];
    for k := 0 to |buckets|
      invariant groups == MinorityGroups(reference, buckets)[..k]
    {
      var own := DedupeStable(buckets[k].lines);
      var others := DiffAll(reference, buckets[k].members);
      groups := groups + [Group(own, others)];
    }
  }

  /** The loop that fills the buckets. */
  method FillBuckets(ok: seq<Target>) returns (buckets: seq<Bucket>)
    ensures buckets == Buckets(ok)
  {
    buckets := [];
    for i := 0 to |ok|
      invariant buckets == Buckets(ok[..i])
    {
      assert ok[..i + 1][..i] == ok[..i];
      buckets := Place(buckets, ok[i]);
    }
    assert ok[..|ok|] == ok;
  }

  // ----- what the report says -----

  /** The ok targets that print the same lines, repetitions included. */
  function Peers(ok: seq<Target>, lines: seq<string>): seq<Target> {
    Filter(ok, (t: Target) => multiset(t.lines) == multiset(lines))
  }

  function Deviators(ok: seq<Target>, lines: seq<string>): seq<Target> {
    Filter(ok, (t: Target) => multiset(t.lines) != multiset(lines))
  }

  /** Larger classes come first, and among equally large ones the one that was met first. */
  predicate RanksBefore(ok: seq<Target>, i: nat, k: nat)
    requires i < |ok| && k < |ok|
  {
    var a, b := |Peers(ok, ok[i].lines)|, |Peers(ok, ok[k].lines)|;
    a > b || (a == b && i < k)
  }

  /** Target i is the first of its class. */
  predicate IsFirst(ok: seq<Target>, i: nat) {
    i < |ok| && forall k :: 0 <= k < i ==> multiset(ok[k].lines) != multiset(ok[i].lines)
  }

  /** The first target of every class, in the order of the report. */
  ghost predicate Leads(ok: seq<Target>, leaders: seq<nat>) {
    (forall k :: 0 <= k < |leaders| ==> IsFirst(ok, leaders[k])) &&
    (forall i :: 0 <= i < |ok| && IsFirst(ok, i) ==> i in leaders) &&
    (forall i, k :: 0 <= i < k < |leaders| ==> RanksBefore(ok, leaders[i], leaders[k]))
  }

  /** A block shows these lines, and explains these targets, one by one, against the reference. */
  ghost predicate Describes(g: Group, lines: seq<string>, reference: seq<string>, ts: seq<Target>) {
    FirstOccurrences(g.signature, lines) && NoDuplicates(g.signature) && |g.outliers| == |ts| &&
    forall i :: 0 <= i < |ts| ==> Explains(g.outliers[i], reference, ts[i])
  }

  /**
   * One block per class. The first is about the largest class and explains everyone outside it; each of the others
   * explains its own members, and all of them against the lines of the first.
   */
  ghost predicate Reports(ok: seq<Target>, leaders: seq<nat>, groups: seq<Group>)
    requires Leads(ok, leaders)
  {
    |groups| == |leaders| &&
    forall k :: 0 <= k < |groups| ==>
      var lines, reference := ok[leaders[k]].lines, ok[leaders[0]].lines;
      Describes(groups[k], lines, reference, if k == 0 then Deviators(ok, reference) else Peers(ok, lines))
  }

  // ----- where a class begins -----

  function FirstKey(ok: seq<Target>, key: string): nat {
    if ok == [] || KeyOf(ok[0]) == key then 0 else 1 + FirstKey(ok[1..], key)
  }

  lemma {:induction false} FirstKeyIsFirst(ok: seq<Target>, key: string)
    requires WithKey(ok, key) != []
    ensures var i := FirstKey(ok, key);
            i < |ok| && ok[i] == WithKey(ok, key)[0] && KeyOf(ok[i]) == key &&
            forall k :: 0 <= k < i ==> KeyOf(ok[k]) != key
  {
    hide Key;
    if KeyOf(ok[0]) != key {
      FirstKeyIsFirst(ok[1..], key);
      forall k | 0 <= k < FirstKey(ok, key) ensures KeyOf(ok[k]) != key {
        if k > 0 { assert ok[k] == ok[1..][k - 1]; }
      }
    }
  }

  lemma {:induction false} FirstKeyAppend(ok: seq<Target>, t: Target, key: string)
    ensures FirstKey(ok + [t], key) ==
            if FirstKey(ok, key) < |ok| || KeyOf(t) == key then FirstKey(ok, key) else |ok| + 1
    ensures FirstKey(ok, key) <= |ok|
  {
    hide Key;
    if ok != [] && KeyOf(ok[0]) != key {
      FirstKeyAppend(ok[1..], t, key);
      assert (ok + [t])[1..] == ok[1..] + [t];
    }
  }

  /** Buckets are met in the order in which their classes begin. */
  ghost predicate InOrder(buckets: seq<Bucket>, ok: seq<Target>) {
    forall i, k :: 0 <= i < k < |buckets| ==> FirstKey(ok, buckets[i].key) < FirstKey(ok, buckets[k].key)
  }

  lemma {:induction false} BucketsInOrder(ok: seq<Target>)
    ensures InOrder(Buckets(ok), ok)
    decreases |ok|
  {
    if ok != [] {
      var front, last := ok[..|ok| - 1], ok[|ok| - 1];
      assert ok == front + [last];
      BucketsInOrder(front);
      BucketsPartition(front);
      PlaceChanges(Buckets(front), last);
      hide Key, Place, FirstKey, KeyOf, FirstWith, WithKey;
      OrderKept(Buckets(front), front, last);
    }
  }

  lemma OrderKept(buckets: seq<Bucket>, ok: seq<Target>, t: Target)
    requires Partition(buckets, ok) && InOrder(buckets, ok)
    requires HasKey(buckets, KeyOf(t)) ==> FiledAt(buckets, t, FirstWith(buckets, KeyOf(t)))
    requires !HasKey(buckets, KeyOf(t)) ==> Place(buckets, t) == buckets + [Bucket(KeyOf(t), t.lines, [t])]
    ensures InOrder(Place(buckets, t), ok + [t])
  {
    hide Key, Place, FirstKey, KeyOf, FirstWith, WithKey;
    forall k | 0 <= k < |buckets|
      ensures FirstKey(ok + [t], buckets[k].key) == FirstKey(ok, buckets[k].key) < |ok|
    {
      assert BucketOk(buckets[k], ok);
      FirstKeyIsFirst(ok, buckets[k].key);
      FirstKeyAppend(ok, t, buckets[k].key);
    }
    if !HasKey(buckets, KeyOf(t)) {
      forall i | 0 <= i < |ok| ensures KeyOf(ok[i]) != KeyOf(t) { assert HasKey(buckets, KeyOf(ok[i])); }
      NobodyBefore(ok, KeyOf(t));
      FirstKeyAppend(ok, t, KeyOf(t));
    }
  }

  lemma {:induction false} NobodyBefore(ok: seq<Target>, key: string)
    requires forall i :: 0 <= i < |ok| ==> KeyOf(ok[i]) != key
    ensures FirstKey(ok, key) == |ok|
  {
    hide Key;
    if ok != [] {
      forall i | 0 <= i < |ok[1..]| ensures KeyOf(ok[1..][i]) != key { assert ok[1..][i] == ok[i + 1]; }
      NobodyBefore(ok[1..], key);
    }
  }

  // ----- the stable sort -----

  predicate Outranks(a: Bucket, b: Bucket, ok: seq<Target>) {
    |a.members| > |b.members| || (|a.members| == |b.members| && FirstKey(ok, a.key) < FirstKey(ok, b.key))
  }

  ghost predicate Ranked(bs: seq<Bucket>, ok: seq<Target>) {
    forall i, k :: 0 <= i < k < |bs| ==> Outranks(bs[i], bs[k], ok)
  }

  lemma RankedCons(b: Bucket, bs: seq<Bucket>, ok: seq<Target>)
    requires Ranked(bs, ok) && forall c <- bs :: Outranks(b, c, ok)
    ensures Ranked([b] + bs, ok)
  {
    hide Outranks;
  }

  lemma {:induction false} InsertRanks(b: Bucket, bs: seq<Bucket>, ok: seq<Target>)
    requires Ranked(bs, ok) && forall c <- bs :: FirstKey(ok, c.key) < FirstKey(ok, b.key)
    ensures Ranked(InsertBySize(b, bs), ok) && forall c :: c in InsertBySize(b, bs) <==> c == b || c in bs
  {
    hide FirstKey;
    if bs == [] || |b.members| > |bs[0].members| {
      forall c <- bs ensures Outranks(b, c, ok) {
        var i :| 0 <= i < |bs| && bs[i] == c;
        assert i > 0 ==> Outranks(bs[0], bs[i], ok);
      }
      RankedCons(b, bs, ok);
    } else {
      assert bs == [bs[0]] + bs[1..];
      InsertRanks(b, bs[1..], ok);
      var r := InsertBySize(b, bs[1..]);
      forall c <- r ensures Outranks(bs[0], c, ok) {
        if c != b {
          var i :| 0 <= i < |bs[1..]| && bs[1..][i] == c;
          assert Outranks(bs[0], bs[i + 1], ok);
        }
      }
      RankedCons(bs[0], r, ok);
    }
  }

  /** The sort orders by size and leaves equally large buckets as it met them; it keeps every bucket. */
  lemma {:induction false} SortRanks(bs: seq<Bucket>, ok: seq<Target>)
    requires InOrder(bs, ok)
    ensures Ranked(SortBySize(bs), ok) && forall c :: c in SortBySize(bs) <==> c in bs
    decreases |bs|
  {
    if bs != [] {
      var front, last := bs[..|bs| - 1], bs[|bs| - 1];
      assert bs == front + [last];
      hide FirstKey, InsertBySize;
      SortRanks(front, ok);
      forall c <- SortBySize(front) ensures FirstKey(ok, c.key) < FirstKey(ok, last.key) {
        var i :| 0 <= i < |front| && front[i] == c;
        assert bs[i] == c;
      }
      InsertRanks(last, SortBySize(front), ok);
    }
  }

  // ----- the report is exact -----

  lemma {:induction false} SameFilter<T>(s: seq<T>, p: T -> bool, q: T -> bool)
    requires forall x <- s :: p(x) == q(x)
    ensures Filter(s, p) == Filter(s, q)
  {
    if s != [] { SameFilter(s[1..], p, q); }
  }

  /** For unmarked lines, equal keys are equal multisets of lines. */
  lemma KeysAreClasses(ok: seq<Target>, lines: seq<string>)
    requires MarkFree(lines) && forall t <- ok :: MarkFree(t.lines)
    ensures WithKey(ok, Key(lines)) == Peers(ok, lines) && Deviating(ok, Key(lines)) == Deviators(ok, lines)
    ensures forall t <- ok :: KeyOf(t) == Key(lines) <==> multiset(t.lines) == multiset(lines)
  {
    hide Key, MarkFree;
    forall t <- ok ensures KeyOf(t) == Key(lines) <==> multiset(t.lines) == multiset(lines) {
      KeyIffMultiset(t.lines, lines);
    }
    var key := Key(lines);
    SameFilter(ok, (t: Target) => KeyOf(t) == key, (t: Target) => multiset(t.lines) == multiset(lines));
    SameFilter(ok, (t: Target) => KeyOf(t) != key, (t: Target) => multiset(t.lines) != multiset(lines));
  }

  /** A bucket stands for the class of its first target. */
  lemma BucketIsClass(ok: seq<Target>, b: Bucket)
    requires BucketOk(b, ok) && forall t <- ok :: MarkFree(t.lines)
    ensures var i := FirstKey(ok, b.key);
            IsFirst(ok, i) && ok[i].lines == b.lines && b.members == Peers(ok, b.lines) && MarkFree(b.lines) &&
            Deviating(ok, b.key) == Deviators(ok, b.lines)
  {
    hide Key, MarkFree, Deviating, Deviators;
    FirstKeyIsFirst(ok, b.key);
    var i := FirstKey(ok, b.key);
    assert ok[i] in ok;
    hide FirstKey, WithKey;
    KeysAreClasses(ok, b.lines);
    forall k | 0 <= k < i ensures multiset(ok[k].lines) != multiset(ok[i].lines) { assert ok[k] in ok; }
  }

  /** Where the classes of these buckets begin. */
  function Leaders(ok: seq<Target>, sorted: seq<Bucket>): (r: seq<nat>)
    ensures |r| == |sorted| && forall k :: 0 <= k < |r| ==> r[k] == FirstKey(ok, sorted[k].key)
  {
    seq(|sorted|, k requires 0 <= k < |sorted| => FirstKey(ok, sorted[k].key))
  }

  lemma LeadersLead(ok: seq<Target>, sorted: seq<Bucket>)
    requires forall t <- ok :: MarkFree(t.lines)
    requires Ranked(sorted, ok) && forall b <- sorted :: BucketOk(b, ok)
    requires forall t <- ok :: exists b <- sorted :: b.key == KeyOf(t)
    ensures Leads(ok, Leaders(ok, sorted))
  {
    hide Key, BucketOk, KeyOf, MarkFree, Peers, FirstKey;
    var leaders := Leaders(ok, sorted);
    forall k | 0 <= k < |sorted|
      ensures IsFirst(ok, leaders[k]) && ok[leaders[k]].lines == sorted[k].lines &&
              sorted[k].members == Peers(ok, sorted[k].lines)
    {
      BucketIsClass(ok, sorted[k]);
    }
    forall i | 0 <= i < |ok| && IsFirst(ok, i) ensures i in leaders {
      assert ok[i] in ok;
      var b :| b in sorted && b.key == KeyOf(ok[i]);
      var k :| 0 <= k < |sorted| && sorted[k] == b;
      SameClass(ok, b, i);
      assert leaders[k] == i;
    }
    forall i, k | 0 <= i < k < |leaders| ensures RanksBefore(ok, leaders[i], leaders[k]) {
      assert Outranks(sorted[i], sorted[k], ok);
    }
  }

  /** The first target of a class is where its bucket begins. */
  lemma SameClass(ok: seq<Target>, b: Bucket, i: nat)
    requires BucketOk(b, ok) && (forall t <- ok :: MarkFree(t.lines)) && IsFirst(ok, i) && b.key == KeyOf(ok[i])
    ensures FirstKey(ok, b.key) == i
  {
    BucketIsClass(ok, b);
    KeysAreClasses(ok, b.lines);
    hide Key, MarkFree, FirstKey, Peers, WithKey, Deviating, Deviators;
    var k := FirstKey(ok, b.key);
    assert ok[i] in ok && ok[k] in ok;
  }

  lemma SortedBuckets(ok: seq<Target>)
    ensures var sorted := SortBySize(Buckets(ok));
            Ranked(sorted, ok) && (forall b <- sorted :: BucketOk(b, ok)) &&
            forall t <- ok :: exists b <- sorted :: b.key == KeyOf(t)
  {
    hide Buckets, SortBySize, BucketOk, KeyOf, InOrder;
    var buckets := Buckets(ok);
    BucketsPartition(ok);
    BucketsInOrder(ok);
    SortRanks(buckets, ok);
    forall t <- ok ensures exists b <- SortBySize(buckets) :: b.key == KeyOf(t) {
      var i :| 0 <= i < |ok| && ok[i] == t;
      assert HasKey(buckets, KeyOf(ok[i]));
      var k :| 0 <= k < |buckets| && buckets[k].key == KeyOf(t);
      assert buckets[k] in SortBySize(buckets);
    }
  }

  lemma OutliersExplain(reference: seq<string>, ts: seq<Target>)
    ensures var os := Outliers(reference, ts);
            |os| == |ts| && forall i :: 0 <= i < |ts| ==> Explains(os[i], reference, ts[i])
  {
    hide Explains, Against;
    forall i | 0 <= i < |ts| ensures Explains(Outliers(reference, ts)[i], reference, ts[i]) {
      AgainstExplains(reference, ts[i]);
    }
  }

  lemma BlockDescribes(lines: seq<string>, reference: seq<string>, ts: seq<Target>)
    ensures Describes(Group(Dedupe(lines), Outliers(reference, ts)), lines, reference, ts)
  {
    hide Explains, FirstOccurrences, Outliers;
    OutliersExplain(reference, ts);
    DedupeKeepsOrder(lines);
    DedupeIsExact(lines);
  }

  lemma BlocksReport(ok: seq<Target>, sorted: seq<Bucket>)
    requires (forall t <- ok :: MarkFree(t.lines)) && forall b <- sorted :: BucketOk(b, ok)
    requires Leads(ok, Leaders(ok, sorted))
    ensures Reports(ok, Leaders(ok, sorted), GroupsOf(ok, sorted).1) && GroupsOf(ok, sorted).0 == |sorted|
  {
    hide Key, BucketOk, MarkFree, Describes, Dedupe, Outliers, FirstKey, Peers, Deviators, Deviating, Leads;
    var leaders, groups := Leaders(ok, sorted), GroupsOf(ok, sorted).1;
    forall k | 0 <= k < |sorted|
      ensures leaders[k] < |ok| && ok[leaders[k]].lines == sorted[k].lines &&
              sorted[k].members == Peers(ok, sorted[k].lines) &&
              Deviating(ok, sorted[k].key) == Deviators(ok, sorted[k].lines) && Key(sorted[k].lines) == sorted[k].key
    {
      BucketIsClass(ok, sorted[k]);
      assert BucketOk(sorted[k], ok) && (BucketOk(sorted[k], ok) ==> Key(sorted[k].lines) == sorted[k].key) by {
        BucketHasKey(sorted[k], ok);
      }
    }
    forall k | 0 <= k < |groups|
      ensures var lines, reference := ok[leaders[k]].lines, ok[leaders[0]].lines;
              Describes(groups[k], lines, reference, if k == 0 then Deviators(ok, reference) else Peers(ok, lines))
    {
      var lines, reference := ok[leaders[k]].lines, ok[leaders[0]].lines;
      BlockDescribes(lines, reference, if k == 0 then Deviators(ok, reference) else Peers(ok, lines));
    }
  }

  lemma BucketHasKey(b: Bucket, ok: seq<Target>)
    requires BucketOk(b, ok)
    ensures Key(b.lines) == b.key
  {
  }

  lemma OkTargetsAre(targets: seq<Target>)
    ensures OkTargets(targets) == Filter(targets, (t: Target) => t.ok)
  {
  }

  /**
   * The whole report, for unmarked lines: a block for every class of equal multisets among the targets that answered,
   * the largest first; who is explained in it, in which order, against which lines, and with exactly what missing
   * and what extra.
   */
  lemma GroupsAreExact(targets: seq<Target>) returns (leaders: seq<nat>)
    requires forall t <- targets :: t.ok ==> MarkFree(t.lines)
    ensures var ok := Filter(targets, (t: Target) => t.ok); var (distinct, groups) := Groups(targets);
            Leads(ok, leaders) && distinct == |leaders| && Reports(ok, leaders, groups)
  {
    hide Buckets, SortBySize, BucketOk, KeyOf, Leads, Reports, GroupsOf, Key, MarkFree, Leaders;
    var ok := OkTargets(targets);
    OkTargetsAre(targets);
    SortedBuckets(ok);
    leaders := Leaders(ok, SortBySize(Buckets(ok)));
    LeadersLead(ok, SortBySize(Buckets(ok)));
    BlocksReport(ok, SortBySize(Buckets(ok)));
    LeadersCount(ok, SortBySize(Buckets(ok)));
  }

  lemma LeadersCount(ok: seq<Target>, sorted: seq<Bucket>)
    ensures |Leaders(ok, sorted)| == |sorted|
  {
  }

  /** groupBySignature. */
  method GroupBySignature(targets: seq<Target>) returns (distinct: nat, groups: seq<Group>)
    ensures (distinct, groups) == Groups(targets)
    ensures (forall t <- targets :: t.ok ==> MarkFree(t.lines)) ==>
              exists leaders :: var ok := Filter(targets, (t: Target) => t.ok);
                Leads(ok, leaders) && distinct == |leaders| && Reports(ok, leaders, groups)
  {
    hide SortBySize, Buckets, Key, Dedupe, Against, MinorityGroups, Deviating, OkTargets, MarkFree, Leads, Reports;
    if forall t <- targets :: t.ok ==> MarkFree(t.lines) { ghost var leaders := GroupsAreExact(targets); }
    var ok := OkTargets(targets);
    var buckets := FillBuckets(ok);
    var sorted := SortBySize(buckets);
    if |sorted| == 0 {
      return 0, [];
    }
    var reference := sorted[0].lines;
    var signature := DedupeStable(reference);
    var outliers := DiffAll(reference, Deviating(ok, Key(reference)));
    var others := DescribeMinorities(reference, sorted[1..]);
    distinct, groups := |sorted|, [Group(signature, outliers)] + others;
  }
}
