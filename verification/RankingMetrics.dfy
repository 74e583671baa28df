/**
  Retrieval metrics of the knowledge recall benchmark: hit rate, recall, precision, reciprocal
  rank and normalised discounted cumulative gain (nDCG) of one query.

  Floating point is modelled by `real`. The gain `2^v - 1` and the discount `1 / log2(i + 2)`
  enter through the only facts about them that matter, collected in `Scale.Valid`.
 */
module RankingMetrics {
  import opened Collections
  import opened Corpus
  import opened Ordering
  import opened Wrappers


  datatype Judgement = Judgement(doc: DocId, grade: real)

  ghost predicate UniqueDocs(js: seq<Judgement>) {
    forall i, j :: 0 <= i < j < |js| ==> js[i].doc != js[j].doc
  }

  /** A query's `relevant` dictionary, in insertion order. */
  type Judgements = js: seq<Judgement> | UniqueDocs(js) witness []

  datatype Scale = Scale(gain: real -> real, discount: nat -> real) {
    ghost predicate Valid() {
      && gain(0.0) == 0.0
      && (forall x, y :: x < y ==> gain(x) < gain(y))
      && (forall i: nat :: discount(i) > 0.0)
      && (forall i: nat, j: nat :: i < j ==> discount(j) < discount(i))
    }
  }

  // ---------------------------------------------------------------- the computation

  function Ids(js: seq<Judgement>): set<DocId> {
    set i | 0 <= i < |js| :: js[i].doc
  }

  /** `relevant.get(doc_id, 0.0)` */
  function GradeOf(js: seq<Judgement>, doc: DocId): real {
    if js == [] then 0.0 else if js[0].doc == doc then js[0].grade else GradeOf(js[1..], doc)
  }

  function Values(js: seq<Judgement>): (r: seq<real>)
    ensures |r| == |js|
    ensures forall i :: 0 <= i < |js| ==> r[i] == js[i].grade
  {
    seq(|js|, i requires 0 <= i < |js| => js[i].grade)
  }

  /** `list(dict.fromkeys(retrieved))`: the first occurrence of every id, in order. */
  function Dedup(retrieved: seq<DocId>): (r: seq<DocId>) {
    if retrieved == [] then
      []
    else
      var before := Dedup(retrieved[..|retrieved| - 1]);
      var last := retrieved[|retrieved| - 1];
      if last in before then before else before + [last]
  }

  function Take<T>(s: seq<T>, k: nat): (r: seq<T>)
    ensures |r| <= k && r <= s
    ensures |s| <= k ==> r == s
    ensures k <= |s| ==> |r| == k
  {
    if k <= |s| then s[..k] else s
  }

  function Grades(js: seq<Judgement>, docs: seq<DocId>): (r: seq<real>)
    ensures |r| == |docs|
    ensures forall i :: 0 <= i < |docs| ==> r[i] == GradeOf(js, docs[i])
  {
    seq(|docs|, i requires 0 <= i < |docs| => GradeOf(js, docs[i]))
  }

  function GainAt(scale: Scale, grades: seq<real>, i: nat): real {
    if i < |grades| then scale.gain(grades[i]) else 0.0
  }

  /** The first `n` summands of the discounted cumulative gain; ranks past the end add nothing. */
  function DcgUpTo(scale: Scale, grades: seq<real>, n: nat): real {
    if n == 0 then 0.0
    else DcgUpTo(scale, grades, n - 1) + GainAt(scale, grades, n - 1) * scale.discount(n - 1)
  }

  function Dcg(scale: Scale, grades: seq<real>): real {
    DcgUpTo(scale, grades, |grades|)
  }

  /** The grades of the `k` best documents, best first. */
  function Ideal(js: seq<Judgement>, k: nat): seq<real> {
    Take(Descending(Values(js)), k)
  }

  function Actual(js: seq<Judgement>, retrieved: seq<DocId>, k: nat): seq<real> {
    Grades(js, Take(Dedup(retrieved), k))
  }

  function Ndcg(scale: Scale, js: seq<Judgement>, retrieved: seq<DocId>, k: nat): real {
    var denominator := Dcg(scale, Ideal(js, k));
    if denominator != 0.0 then Dcg(scale, Actual(js, retrieved, k)) / denominator else 0.0
  }

  /** One more document adds its gain, discounted by its rank counted from 0. */
  lemma DcgOfMore(scale: Scale, grades: seq<real>, grade: real)
    ensures Dcg(scale, []) == 0.0
    ensures Dcg(scale, grades + [grade]) == Dcg(scale, grades) + scale.gain(grade) * scale.discount(|grades|)
  {
    DcgIgnoresMore(scale, grades, [grade], |grades|);
  }

  lemma {:induction false} DcgIgnoresMore(scale: Scale, grades: seq<real>, more: seq<real>, n: nat)
    requires n <= |grades|
    ensures DcgUpTo(scale, grades + more, n) == DcgUpTo(scale, grades, n)
  {
    if n == 0 {
    } else {
      DcgIgnoresMore(scale, grades, more, n - 1);
    }
  }

  // ---------------------------------------------------------------- cumulative gain

  /** Undiscounted gain of the first `n` ranks. */
  ghost function Mass(scale: Scale, grades: seq<real>, n: nat): real {
    if n == 0 then 0.0 else Mass(scale, grades, n - 1) + GainAt(scale, grades, n - 1)
  }

  ghost function Discounted(gain: real, discount: real): real {
    gain * discount
  }

  lemma PartsStep(lead: real, before: real, after: real, d': real, d: real)
    requires before >= 0.0 && after >= 0.0 && 0.0 < d < d'
    requires lead >= Discounted(before, d')
    ensures lead + Discounted(after - before, d) >= Discounted(after, d) >= 0.0
    ensures lead + Discounted(after - before, d) == 0.0 ==> after == 0.0 && before == 0.0 && lead == 0.0
  {
  }

  /**
    Summation by parts: a list whose cumulative gain is dominated at every rank has the smaller
    DCG, and the two DCGs agree only if the cumulative gains agree at every rank.
   */
  lemma {:induction false} DominatedMassGivesSmallerDcg(scale: Scale, a: seq<real>, b: seq<real>, n: nat)
    requires scale.Valid()
    requires forall m: nat :: m <= n ==> Mass(scale, a, m) <= Mass(scale, b, m)
    ensures n > 0 ==> DcgUpTo(scale, b, n) - DcgUpTo(scale, a, n)
                      >= Discounted(Mass(scale, b, n) - Mass(scale, a, n), scale.discount(n - 1)) >= 0.0
    ensures n == 0 ==> DcgUpTo(scale, b, n) == DcgUpTo(scale, a, n)
    ensures DcgUpTo(scale, a, n) == DcgUpTo(scale, b, n)
            ==> forall m: nat :: m <= n ==> Mass(scale, a, m) == Mass(scale, b, m)
  {
    hide Mass, DcgUpTo, GainAt, Discounted;
    EmptySums(scale, a);
    EmptySums(scale, b);
    if n == 0 {
    } else {
      DominatedMassGivesSmallerDcg(scale, a, b, n - 1);
      var before := Mass(scale, b, n - 1) - Mass(scale, a, n - 1);
      var after := Mass(scale, b, n) - Mass(scale, a, n);
      var d := scale.discount(n - 1);
      var d' := if n == 1 then d + 1.0 else scale.discount(n - 2);
      var lead := DcgUpTo(scale, b, n - 1) - DcgUpTo(scale, a, n - 1);
      NothingDiscounted(d');
      DcgGap(scale, a, b, n);
      PartsStep(lead, before, after, d', d);
    }
  }

  lemma NothingDiscounted(d: real)
    ensures Discounted(0.0, d) == 0.0
  {
  }

  lemma EmptySums(scale: Scale, grades: seq<real>)
    ensures Mass(scale, grades, 0) == 0.0 && DcgUpTo(scale, grades, 0) == 0.0
  {
  }

  lemma DcgGap(scale: Scale, a: seq<real>, b: seq<real>, n: nat)
    requires n > 0
    ensures DcgUpTo(scale, b, n) - DcgUpTo(scale, a, n)
         == (DcgUpTo(scale, b, n - 1) - DcgUpTo(scale, a, n - 1))
            + Discounted((Mass(scale, b, n) - Mass(scale, a, n)) - (Mass(scale, b, n - 1) - Mass(scale, a, n - 1)),
                         scale.discount(n - 1))
  {
  }

  ghost function Total(scale: Scale, grades: seq<real>): real {
    if grades == [] then 0.0 else scale.gain(grades[0]) + Total(scale, grades[1..])
  }

  lemma {:induction false} TotalOfConcat(scale: Scale, a: seq<real>, b: seq<real>)
    ensures Total(scale, a + b) == Total(scale, a) + Total(scale, b)
  {
    if a == [] {
      assert a + b == b;
    } else {
      assert (a + b)[1..] == a[1..] + b;
      TotalOfConcat(scale, a[1..], b);
    }
  }

  lemma {:induction false} MassIsTotal(scale: Scale, grades: seq<real>, n: nat)
    ensures Mass(scale, grades, n) == Total(scale, Take(grades, n))
  {
    if n == 0 {
    } else {
      MassIsTotal(scale, grades, n - 1);
      if n <= |grades| {
        assert Take(grades, n) == Take(grades, n - 1) + [grades[n - 1]];
        TotalOfConcat(scale, Take(grades, n - 1), [grades[n - 1]]);
      }
    }
  }

  /** The list without its element at `i`. */
  ghost function Without<T>(s: seq<T>, i: nat): (r: seq<T>)
    requires i < |s|
    ensures |r| == |s| - 1
    ensures multiset(s) == multiset(r) + multiset{s[i]}
  {
    assert s == s[..i] + [s[i]] + s[i + 1..];
    s[..i] + s[i + 1..]
  }

  lemma TotalWithout(scale: Scale, s: seq<real>, i: nat)
    requires i < |s|
    ensures Total(scale, s) == scale.gain(s[i]) + Total(scale, Without(s, i))
  {
    assert s == s[..i] + ([s[i]] + s[i + 1..]);
    TotalOfConcat(scale, s[..i], [s[i]] + s[i + 1..]);
    assert ([s[i]] + s[i + 1..])[1..] == s[i + 1..];
    TotalOfConcat(scale, s[..i], s[i + 1..]);
  }

  lemma SubMultisetSize<T>(a: multiset<T>, b: multiset<T>)
    requires a <= b
    ensures |a| <= |b|
  {
    assert b == a + (b - a);
  }

  lemma AtMostHead(ranked: seq<real>, x: real)
    requires IsDescending(ranked) && x in multiset(ranked)
    ensures x <= ranked[0]
  {
  }

  /** No `|chosen|` members of a descending list gain more than its first `|chosen|` members. */
  lemma {:induction false} BestAreFirst(scale: Scale, ranked: seq<real>, chosen: seq<real>)
    requires scale.Valid()
    requires IsDescending(ranked)
    requires multiset(chosen) <= multiset(ranked)
    ensures |chosen| <= |ranked|
    ensures Total(scale, chosen) <= Total(scale, ranked[..|chosen|])
    decreases |ranked|
  {
    hide Without, FindIndex;
    SubMultisetSize(multiset(chosen), multiset(ranked));
    if chosen == [] {
      return;
    }
    hide Total;
    var head := ranked[0];
    var i := if head in chosen then FindIndex(chosen, head) else 0;
    assert chosen[i] in multiset(chosen);
    AtMostHead(ranked, chosen[i]);
    assert scale.gain(chosen[i]) <= scale.gain(head);
    RestStillChosen(ranked, chosen, i);
    BestAreFirst(scale, ranked[1..], Without(chosen, i));
    TotalWithout(scale, chosen, i);
    TotalOfFirst(scale, ranked, |chosen|);
  }

  lemma TotalOfFirst(scale: Scale, s: seq<real>, n: nat)
    requires 0 < n <= |s|
    ensures Total(scale, s[..n]) == scale.gain(s[0]) + Total(scale, s[1..][..n - 1])
  {
    assert s[..n][1..] == s[1..][..n - 1];
  }

  lemma RestStillChosen(ranked: seq<real>, chosen: seq<real>, i: nat)
    requires ranked != [] && i < |chosen|
    requires multiset(chosen) <= multiset(ranked)
    requires chosen[i] == ranked[0] || ranked[0] !in chosen
    ensures multiset(Without(chosen, i)) <= multiset(ranked[1..])
  {
    assert ranked == [ranked[0]] + ranked[1..];
    var rest := multiset(Without(chosen, i));
    forall x ensures rest[x] <= multiset(ranked[1..])[x] {
      assert multiset(chosen)[x] == rest[x] + multiset{chosen[i]}[x];
      assert multiset(ranked)[x] == multiset(ranked[1..])[x] + multiset{ranked[0]}[x];
      assert x in multiset(chosen) <==> x in chosen;
    }
  }

  ghost function FindIndex<T>(s: seq<T>, x: T): (i: nat)
    requires x in s
    ensures i < |s| && s[i] == x
  {
    if s[0] == x then 0 else FindIndex(s[1..], x) + 1
  }

  // ---------------------------------------------------------------- distinct documents

  lemma {:induction false} DedupKeepsFirsts(retrieved: seq<DocId>)
    ensures Distinct(Dedup(retrieved))
    ensures forall d :: d in Dedup(retrieved) <==> d in retrieved
    ensures forall i, j :: 0 <= i < j < |Dedup(retrieved)| ==>
      FindIndex(retrieved, Dedup(retrieved)[i]) < FindIndex(retrieved, Dedup(retrieved)[j])
  {
    if retrieved == [] {
    } else {
      var init, last := retrieved[..|retrieved| - 1], retrieved[|retrieved| - 1];
      DedupKeepsFirsts(init);
      assert retrieved == init + [last];
      forall d | d in init ensures FindIndex(retrieved, d) == FindIndex(init, d) {
        FindIndexOfPrefix(init, last, d);
      }
      if last !in init {
        forall i | 0 <= i < |init| ensures retrieved[i] != last {
          assert init[i] in init;
        }
        assert FindIndex(retrieved, last) == |init|;
      }
    }
  }

  lemma {:induction false} FindIndexOfPrefix<T>(s: seq<T>, last: T, x: T)
    requires x in s
    ensures x in s + [last] && FindIndex(s + [last], x) == FindIndex(s, x)
  {
    if s[0] != x {
      assert (s + [last])[1..] == s[1..] + [last];
      FindIndexOfPrefix(s[1..], last, x);
    }
  }

  lemma {:induction false} GradeOfIndex(js: Judgements, i: nat)
    requires i < |js|
    ensures GradeOf(js, js[i].doc) == js[i].grade
  {
    if i == 0 {
    } else {
      var rest: Judgements := js[1..];
      GradeOfIndex(rest, i - 1);
      assert rest[i - 1] == js[i];
    }
  }

  lemma {:induction false} GradeOfUnjudged(js: seq<Judgement>, doc: DocId)
    requires doc !in Ids(js)
    ensures GradeOf(js, doc) == 0.0
  {
    if js == [] {
    } else {
      forall i | 0 <= i < |js[1..]| ensures js[1..][i].doc != doc {
        assert js[i + 1].doc in Ids(js);
      }
      assert js[0].doc in Ids(js);
      GradeOfUnjudged(js[1..], doc);
    }
  }

  /** The grades of those documents that are judged at all. */
  ghost function JudgedGrades(js: seq<Judgement>, docs: seq<DocId>): seq<real> {
    if docs == [] then []
    else (if docs[0] in Ids(js) then [GradeOf(js, docs[0])] else []) + JudgedGrades(js, docs[1..])
  }

  lemma {:induction false} UnjudgedGainNothing(scale: Scale, js: seq<Judgement>, docs: seq<DocId>)
    requires scale.Valid()
    ensures Total(scale, Grades(js, docs)) == Total(scale, JudgedGrades(js, docs))
    ensures |JudgedGrades(js, docs)| <= |docs|
  {
    if docs == [] {
    } else {
      UnjudgedGainNothing(scale, js, docs[1..]);
      assert Grades(js, docs)[1..] == Grades(js, docs[1..]);
      if docs[0] in Ids(js) {
        assert JudgedGrades(js, docs)[1..] == JudgedGrades(js, docs[1..]);
      } else {
        assert JudgedGrades(js, docs) == JudgedGrades(js, docs[1..]);
        GradeOfUnjudged(js, docs[0]);
      }
    }
  }

  /** Distinct documents use up distinct judgements. */
  lemma {:induction false} JudgedGradesAreDrawnOnce(js: Judgements, docs: seq<DocId>)
    requires Distinct(docs)
    ensures multiset(JudgedGrades(js, docs)) <= multiset(Values(js))
  {
    if docs == [] {
      return;
    }
    var doc := docs[0];
    if doc !in Ids(js) {
      assert JudgedGrades(js, docs) == JudgedGrades(js, docs[1..]);
      JudgedGradesAreDrawnOnce(js, docs[1..]);
      return;
    }
    var i :| 0 <= i < |js| && js[i].doc == doc;
    WithoutKeepsUnique(js, i);
    var rest: Judgements := Without(js, i);
    JudgedGradesAreDrawnOnce(rest, docs[1..]);
    forall d | d in docs[1..]
      ensures (d in Ids(js) <==> d in Ids(rest)) && GradeOf(js, d) == GradeOf(rest, d)
    {
      RemovingOtherKeepsGrade(js, i, d);
    }
    SameGradesSameList(js, rest, docs[1..]);
    GradeOfIndex(js, i);
    ValuesWithout(js, i);
    assert JudgedGrades(js, docs) == [js[i].grade] + JudgedGrades(rest, docs[1..]);
  }

  lemma WithoutKeepsUnique(js: Judgements, i: nat)
    requires i < |js|
    ensures UniqueDocs(Without(js, i))
  {
  }

  lemma ValuesWithout(js: Judgements, i: nat)
    requires i < |js|
    ensures multiset(Values(js)) == multiset(Values(Without(js, i))) + multiset{js[i].grade}
  {
    assert Values(Without(js, i)) == Without(Values(js), i);
  }

  lemma RemovingOtherKeepsGrade(js: Judgements, i: nat, d: DocId)
    requires i < |js| && js[i].doc != d
    ensures UniqueDocs(Without(js, i))
    ensures d in Ids(js) <==> d in Ids(Without(js, i))
    ensures GradeOf(js, d) == GradeOf(Without(js, i), d)
  {
    WithoutKeepsUnique(js, i);
    var rest: Judgements := Without(js, i);
    if d in Ids(js) {
      var j :| 0 <= j < |js| && js[j].doc == d;
      GradeOfIndex(js, j);
      var j' := if j < i then j else j - 1;
      assert rest[j'] == js[j];
      GradeOfIndex(rest, j');
    } else {
      forall k | 0 <= k < |rest| ensures rest[k].doc != d {
        assert rest[k] == js[if k < i then k else k + 1];
      }
      GradeOfUnjudged(js, d);
      GradeOfUnjudged(rest, d);
    }
  }

  lemma {:induction false} SameGradesSameList(js: seq<Judgement>, js': seq<Judgement>, docs: seq<DocId>)
    requires forall d :: d in docs ==> (d in Ids(js) <==> d in Ids(js')) && GradeOf(js, d) == GradeOf(js', d)
    ensures JudgedGrades(js, docs) == JudgedGrades(js', docs)
  {
    if docs == [] {
    } else {
      assert docs[0] in docs;
      SameGradesSameList(js, js', docs[1..]);
    }
  }

  // ---------------------------------------------------------------- the bound

  /** None of the `k` best grades is negative. */
  ghost predicate IdealNonNegative(js: seq<Judgement>, k: nat) {
    forall i :: 0 <= i < |Ideal(js, k)| ==> Ideal(js, k)[i] >= 0.0
  }

  lemma MassMonotone(scale: Scale, grades: seq<real>, m: nat, n: nat)
    requires scale.Valid() && m <= n
    requires forall i :: 0 <= i < |grades| ==> grades[i] >= 0.0
    ensures Mass(scale, grades, m) <= Mass(scale, grades, n)
  {
  }

  lemma ActualMassIsDominated(scale: Scale, js: Judgements, retrieved: seq<DocId>, k: nat, m: nat)
    requires scale.Valid() && m <= k
    requires IdealNonNegative(js, k)
    ensures Mass(scale, Actual(js, retrieved, k), m) <= Mass(scale, Ideal(js, k), m)
  {
    DedupKeepsFirsts(retrieved);
    var docs := Take(Take(Dedup(retrieved), k), m);
    assert Take(Actual(js, retrieved, k), m) == Grades(js, docs);
    MassIsTotal(scale, Actual(js, retrieved, k), m);
    IdealMassIsLargest(scale, js, docs, k, m);
  }

  lemma IdealMassIsLargest(scale: Scale, js: Judgements, docs: seq<DocId>, k: nat, m: nat)
    requires scale.Valid() && |docs| <= m <= k && Distinct(docs)
    requires IdealNonNegative(js, k)
    ensures Total(scale, Grades(js, docs)) <= Mass(scale, Ideal(js, k), m)
  {
    hide Mass, Total, GainAt, JudgedGrades, Grades;
    UnjudgedGainNothing(scale, js, docs);
    JudgedGradesAreDrawnOnce(js, docs);
    var chosen := JudgedGrades(js, docs);
    BestAreFirst(scale, Descending(Values(js)), chosen);
    assert Descending(Values(js))[..|chosen|] == Take(Ideal(js, k), |chosen|);
    MassIsTotal(scale, Ideal(js, k), |chosen|);
    MassMonotone(scale, Ideal(js, k), |chosen|, m);
  }

  lemma {:induction false} DcgPadding(scale: Scale, grades: seq<real>, n: nat)
    requires |grades| <= n
    ensures DcgUpTo(scale, grades, n) == Dcg(scale, grades)
    decreases n
  {
    if |grades| < n {
      DcgPadding(scale, grades, n - 1);
    }
  }

  /** The rearrangement inequality: no ranking of distinct documents beats the ideal one. */
  lemma NoRankingBeatsIdeal(scale: Scale, js: Judgements, retrieved: seq<DocId>, k: nat)
    requires scale.Valid()
    requires IdealNonNegative(js, k)
    ensures Dcg(scale, Actual(js, retrieved, k)) <= Dcg(scale, Ideal(js, k))
    ensures Dcg(scale, Actual(js, retrieved, k)) == Dcg(scale, Ideal(js, k))
            ==> forall m: nat :: m <= k ==> Mass(scale, Actual(js, retrieved, k), m) == Mass(scale, Ideal(js, k), m)
  {
    var a, b := Actual(js, retrieved, k), Ideal(js, k);
    forall m: nat | m <= k ensures Mass(scale, a, m) <= Mass(scale, b, m) {
      ActualMassIsDominated(scale, js, retrieved, k, m);
    }
    DominatedMassGivesSmallerDcg(scale, a, b, k);
    DcgPadding(scale, a, k);
    DcgPadding(scale, b, k);
  }

  ghost predicate NonNegative(js: seq<Judgement>) {
    forall i :: 0 <= i < |js| ==> js[i].grade >= 0.0
  }

  lemma {:induction false} GradeNonNegative(js: seq<Judgement>, doc: DocId)
    requires NonNegative(js)
    ensures GradeOf(js, doc) >= 0.0
  {
    if js == [] {
    } else {
      GradeNonNegative(js[1..], doc);
    }
  }

  lemma ProductHasSign(gain: real, discount: real)
    requires discount > 0.0
    ensures gain >= 0.0 ==> gain * discount >= 0.0
    ensures gain > 0.0 ==> gain * discount > 0.0
    ensures gain < 0.0 ==> gain * discount < 0.0
  {
  }

  lemma {:induction false} DcgNonNegative(scale: Scale, grades: seq<real>, n: nat)
    requires scale.Valid()
    requires forall i :: 0 <= i < |grades| ==> grades[i] >= 0.0
    ensures DcgUpTo(scale, grades, n) >= 0.0
    ensures n > 0 && |grades| > 0 && grades[0] > 0.0 ==> DcgUpTo(scale, grades, n) > 0.0
  {
    if n == 0 {
    } else {
      DcgNonNegative(scale, grades, n - 1);
      ProductHasSign(GainAt(scale, grades, n - 1), scale.discount(n - 1));
    }
  }

  lemma IdealOfNonNegative(js: seq<Judgement>, k: nat)
    requires NonNegative(js)
    ensures IdealNonNegative(js, k)
  {
    forall i | 0 <= i < |Ideal(js, k)| ensures Ideal(js, k)[i] >= 0.0 {
      var j := RankedGradeIsGiven(js, i);
    }
  }

  lemma RankedGradeIsGiven(js: seq<Judgement>, i: nat) returns (j: nat)
    requires i < |Descending(Values(js))|
    ensures j < |js| && Descending(Values(js))[i] == js[j].grade
  {
    var ranked, given := Descending(Values(js)), Values(js);
    assert ranked[i] in multiset(ranked);
    assert ranked[i] in multiset(given);
    j :| 0 <= j < |given| && given[j] == ranked[i];
  }

  /** nDCG lies between 0 and 1 for every retrieved list, repeated ids included. */
  lemma NdcgInUnitInterval(scale: Scale, js: Judgements, retrieved: seq<DocId>, k: nat)
    requires scale.Valid() && NonNegative(js)
    ensures 0.0 <= Ndcg(scale, js, retrieved, k) <= 1.0
  {
    IdealOfNonNegative(js, k);
    NoRankingBeatsIdeal(scale, js, retrieved, k);
    var a := Actual(js, retrieved, k);
    forall i | 0 <= i < |a| ensures a[i] >= 0.0 {
      GradeNonNegative(js, Take(Dedup(retrieved), k)[i]);
    }
    DcgNonNegative(scale, a, |a|);
    DcgNonNegative(scale, Ideal(js, k), |Ideal(js, k)|);
    var y := Dcg(scale, Ideal(js, k));
    if y != 0.0 {
      QuotientInUnitInterval(Dcg(scale, a), y);
    }
  }

  lemma QuotientInUnitInterval(x: real, y: real)
    requires 0.0 <= x <= y && y != 0.0
    ensures 0.0 <= x / y <= 1.0
    ensures x / y == 1.0 <==> x == y
  {
  }

  ghost function GradeAt(grades: seq<real>, i: nat): real {
    if i < |grades| then grades[i] else 0.0
  }

  /**
    nDCG is exactly 1 for those rankings, and only those, that show the ideal grade at every one
    of the first `k` ranks (an absent rank counts as grade 0).
   */
  lemma NdcgIsOneIff(scale: Scale, js: Judgements, retrieved: seq<DocId>, k: nat)
    requires scale.Valid() && NonNegative(js)
    requires Dcg(scale, Ideal(js, k)) != 0.0
    ensures Ndcg(scale, js, retrieved, k) == 1.0
            <==> forall i: nat :: i < k ==> GradeAt(Actual(js, retrieved, k), i) == GradeAt(Ideal(js, k), i)
  {
    var a, b := Actual(js, retrieved, k), Ideal(js, k);
    NdcgInUnitInterval(scale, js, retrieved, k);
    IdealOfNonNegative(js, k);
    NoRankingBeatsIdeal(scale, js, retrieved, k);
    EqualQuotient(Dcg(scale, a), Dcg(scale, b));
    hide *;
    if Dcg(scale, a) == Dcg(scale, b) {
      SameMassSameGrades(scale, a, b, k);
    }
    if forall i: nat :: i < k ==> GradeAt(a, i) == GradeAt(b, i) {
      SameGradesSameDcg(scale, a, b, k);
      DcgPadding(scale, a, k);
      DcgPadding(scale, b, k);
    }
  }

  lemma EqualQuotient(x: real, y: real)
    requires y != 0.0
    ensures x / y == 1.0 <==> x == y
  {
  }

  lemma SameMassSameGrades(scale: Scale, a: seq<real>, b: seq<real>, k: nat)
    requires scale.Valid()
    requires forall m: nat :: m <= k ==> Mass(scale, a, m) == Mass(scale, b, m)
    ensures forall i: nat :: i < k ==> GradeAt(a, i) == GradeAt(b, i)
  {
    forall i: nat | i < k ensures GradeAt(a, i) == GradeAt(b, i) {
      assert Mass(scale, a, i + 1) == Mass(scale, b, i + 1);
      assert Mass(scale, a, i) == Mass(scale, b, i);
      assert scale.gain(GradeAt(a, i)) == scale.gain(GradeAt(b, i));
    }
  }

  lemma {:induction false} SameGradesSameDcg(scale: Scale, a: seq<real>, b: seq<real>, n: nat)
    requires scale.Valid()
    requires forall i: nat :: i < n ==> GradeAt(a, i) == GradeAt(b, i)
    ensures DcgUpTo(scale, a, n) == DcgUpTo(scale, b, n)
  {
    if n == 0 {
    } else {
      SameGradesSameDcg(scale, a, b, n - 1);
      hide GradeAt;
      assert GradeAt(a, n - 1) == GradeAt(b, n - 1);
    }
  }

  // ---------------------------------------------------------------- attaining and breaking the bound

  /** Any selection of grades can be shown by distinct judged documents. */
  lemma {:induction false} PickDocs(js: Judgements, wanted: seq<real>) returns (docs: seq<DocId>)
    requires multiset(wanted) <= multiset(Values(js))
    ensures Distinct(docs) && |docs| == |wanted|
    ensures forall d :: d in docs ==> d in Ids(js)
    ensures Grades(js, docs) == wanted
  {
    if wanted == [] {
      return [];
    }
    assert wanted[0] in multiset(wanted);
    var i := FindIndex(Values(js), wanted[0]);
    assert js[i].grade == wanted[0];
    hide GradeOf, Distinct, Ids, FindIndex, Values;
    WithoutKeepsUnique(js, i);
    RestStillWanted(js, i, wanted);
    var others := PickDocs(Without(js, i), wanted[1..]);
    PrependPicked(js, i, others, wanted[1..]);
    docs := [js[i].doc] + others;
  }

  lemma RestStillWanted(js: Judgements, i: nat, wanted: seq<real>)
    requires i < |js| && wanted != [] && wanted[0] == js[i].grade
    requires multiset(wanted) <= multiset(Values(js))
    ensures multiset(wanted[1..]) <= multiset(Values(Without(js, i)))
  {
    ValuesWithout(js, i);
    assert wanted == [wanted[0]] + wanted[1..];
    forall x ensures multiset(wanted[1..])[x] <= multiset(Values(Without(js, i)))[x] {
      assert multiset(wanted)[x] == multiset(wanted[1..])[x] + multiset{wanted[0]}[x];
    }
  }

  lemma PrependPicked(js: Judgements, i: nat, others: seq<DocId>, rest: seq<real>)
    requires i < |js| && Distinct(others)
    requires forall d :: d in others ==> d in Ids(Without(js, i))
    requires Grades(Without(js, i), others) == rest
    ensures Distinct([js[i].doc] + others)
    ensures forall d :: d in [js[i].doc] + others ==> d in Ids(js)
    ensures Grades(js, [js[i].doc] + others) == [js[i].grade] + rest
  {
    GradeOfIndex(js, i);
    forall d | d in others
      ensures d != js[i].doc && d in Ids(js) && GradeOf(js, d) == GradeOf(Without(js, i), d)
    {
      WithoutDropsDoc(js, i, d);
      RemovingOtherKeepsGrade(js, i, d);
    }
  }

  lemma WithoutDropsDoc(js: Judgements, i: nat, d: DocId)
    requires i < |js| && d in Ids(Without(js, i))
    ensures d != js[i].doc
  {
  }

  lemma {:induction false} DedupOfDistinct(docs: seq<DocId>)
    requires Distinct(docs)
    ensures Dedup(docs) == docs
  {
    if docs == [] {
    } else {
      var init := docs[..|docs| - 1];
      DedupOfDistinct(init);
      assert docs == init + [docs[|docs| - 1]];
    }
  }

  /** The bound is attained: some ranking reproduces any first part of the ideal list. */
  lemma RankingShowingIdeal(js: Judgements, k: nat, n: nat) returns (retrieved: seq<DocId>)
    requires n <= |Ideal(js, k)|
    ensures Actual(js, retrieved, k) == Ideal(js, k)[..n]
  {
    var sorted := Descending(Values(js));
    assert Ideal(js, k)[..n] == sorted[..n];
    PrefixIsDrawn(sorted, n);
    hide *;
    retrieved := PickDocs(js, sorted[..n]);
    DedupOfDistinct(retrieved);
    ShortListIsShownWhole(js, retrieved, k);
  }

  lemma PrefixIsDrawn(s: seq<real>, n: nat)
    requires n <= |s|
    ensures multiset(s[..n]) <= multiset(s)
  {
    assert s == s[..n] + s[n..];
  }

  lemma ShortListIsShownWhole(js: Judgements, retrieved: seq<DocId>, k: nat)
    requires Dedup(retrieved) == retrieved && |retrieved| <= k
    ensures Actual(js, retrieved, k) == Grades(js, retrieved)
  {
  }

  lemma {:induction false} DcgOfPrefix(scale: Scale, grades: seq<real>, n: nat, m: nat)
    requires m <= n <= |grades|
    ensures DcgUpTo(scale, grades[..n], m) == DcgUpTo(scale, grades, m)
  {
    if m == 0 {
    } else {
      DcgOfPrefix(scale, grades, n, m - 1);
    }
  }

  lemma {:induction false} NegativeTailLowersDcg(scale: Scale, grades: seq<real>, m: nat, n: nat)
    requires scale.Valid() && m < n <= |grades|
    requires forall i :: m <= i < |grades| ==> grades[i] < 0.0
    ensures DcgUpTo(scale, grades, n) < DcgUpTo(scale, grades, m)
  {
    assert scale.gain(grades[n - 1]) < 0.0 by { hide DcgUpTo; }
    ProductHasSign(GainAt(scale, grades, n - 1), scale.discount(n - 1));
    if m + 1 < n {
      NegativeTailLowersDcg(scale, grades, m, n - 1);
    }
  }

  /**
    The ideal DCG bounds every ranking's DCG if and only if the `k` best grades are
    non-negative. Neither loader refuses a negative score, so the condition is a real one.
   */
  lemma IdealIsMaximalIff(scale: Scale, js: Judgements, k: nat)
    requires scale.Valid()
    ensures IdealNonNegative(js, k)
            <==> forall retrieved: seq<DocId> :: Dcg(scale, Actual(js, retrieved, k)) <= Dcg(scale, Ideal(js, k))
  {
    if IdealNonNegative(js, k) {
      forall retrieved: seq<DocId> ensures Dcg(scale, Actual(js, retrieved, k)) <= Dcg(scale, Ideal(js, k)) {
        NoRankingBeatsIdeal(scale, js, retrieved, k);
      }
    } else {
      var retrieved := BetterThanIdeal(scale, js, k);
      assert Dcg(scale, Actual(js, retrieved, k)) > Dcg(scale, Ideal(js, k));
    }
  }

  /** With a negative grade among the `k` best, stopping before it beats the ideal list. */
  lemma BetterThanIdeal(scale: Scale, js: Judgements, k: nat) returns (retrieved: seq<DocId>)
    requires scale.Valid() && !IdealNonNegative(js, k)
    ensures Dcg(scale, Actual(js, retrieved, k)) > Dcg(scale, Ideal(js, k))
  {
    var ideal := Ideal(js, k);
    var n := FirstNegative(ideal);
    retrieved := RankingShowingIdeal(js, k, n);
    DcgOfPrefix(scale, ideal, n, n);
    NegativeTailLowersDcg(scale, ideal, n, |ideal|);
  }

  lemma FirstNegative(s: seq<real>) returns (n: nat)
    requires IsDescending(s)
    requires exists i :: 0 <= i < |s| && s[i] < 0.0
    ensures n < |s|
    ensures forall i :: 0 <= i < n ==> s[i] >= 0.0
    ensures forall i :: n <= i < |s| ==> s[i] < 0.0
  {
    n := 0;
    while s[n] >= 0.0
      invariant n < |s|
      invariant forall i :: 0 <= i < n ==> s[i] >= 0.0
      decreases |s| - n
    {
      n := n + 1;
    }
  }

  // ---------------------------------------------------------------- all metrics of one query

  datatype Metric = HitRate | Recall | Precision | Mrr | NdcgScore

  datatype MetricKey = MetricKey(metric: Metric, k: nat)

  const KS: seq<nat> := [1, 3, 6]

  function Found(js: seq<Judgement>, docs: seq<DocId>): set<DocId> {
    set d | d in docs && d in Ids(js)
  }

  /** The 1-based rank of the first judged document. */
  function FirstRank(js: seq<Judgement>, docs: seq<DocId>): (r: Option<nat>)
    ensures r.Some? ==> 1 <= r.value <= |docs| && docs[r.value - 1] in Ids(js)
    ensures r.Some? ==> forall i :: 0 <= i < r.value - 1 ==> docs[i] !in Ids(js)
    ensures r.None? ==> forall d :: d in docs ==> d !in Ids(js)
  {
    if docs == [] then None
    else if docs[0] in Ids(js) then Some(1)
    else
      match FirstRank(js, docs[1..])
      case None => None
      case Some(n) => Some(n + 1)
  }

  function Ratio(n: nat, m: nat): (r: real)
    requires m > 0
    ensures r * m as real == n as real
  {
    n as real / m as real
  }

  function MetricValue(scale: Scale, js: Judgements, retrieved: seq<DocId>, key: MetricKey): real
    requires key.k > 0
  {
    var docs := Dedup(retrieved);
    var found := |Found(js, Take(docs, key.k))|;
    match key.metric
    case HitRate => if Found(js, Take(docs, key.k)) != {} then 1.0 else 0.0
    case Recall => if Ids(js) != {} then Ratio(found, |Ids(js)|) else 0.0
    case Precision => Ratio(found, key.k)
    case Mrr =>
      var first := FirstRank(js, docs);
      if first.Some? && first.value <= key.k then Ratio(1, first.value) else 0.0
    case NdcgScore => Ndcg(scale, js, retrieved, key.k)
  }

  /** The body of the loop over `KS`: the five metrics of one cut-off. */
  method MetricsAt(scale: Scale, relevant: Judgements, retrieved: seq<DocId>, deduplicated: seq<DocId>,
                   firstRank: Option<nat>, k: nat)
    returns (row: map<Metric, real>)
    requires k > 0 && deduplicated == Dedup(retrieved) && firstRank == FirstRank(relevant, deduplicated)
    ensures forall m :: m in row && row[m] == MetricValue(scale, relevant, retrieved, MetricKey(m, k))
  {
    hide Dcg, Ideal, Dedup, FirstRank, Ratio, GradeOf;
    var relevantIds := Ids(relevant);
    var top := Take(deduplicated, k);
    var found := Found(relevant, top);
    var denominator := Dcg(scale, Ideal(relevant, k));
    row := map[
      HitRate := if found != {} then 1.0 else 0.0,
      Recall := if relevantIds != {} then Ratio(|found|, |relevantIds|) else 0.0,
      Precision := Ratio(|found|, k),
      Mrr := if firstRank.Some? && firstRank.value <= k then Ratio(1, firstRank.value) else 0.0,
      NdcgScore := if denominator != 0.0 then Dcg(scale, Grades(relevant, top)) / denominator else 0.0
    ];
    forall m ensures m in row && row[m] == MetricValue(scale, relevant, retrieved, MetricKey(m, k)) {
      match m
      case HitRate =>
      case Recall =>
      case Precision =>
      case Mrr =>
      case NdcgScore =>
    }
  }

  /** `query_metrics`: every metric at every cut-off of `KS`, and nothing else. */
  method QueryMetrics(scale: Scale, retrieved: seq<DocId>, relevant: Judgements)
    returns (metrics: map<MetricKey, real>)
    ensures forall key :: key in metrics <==> key.k in KS
    ensures forall key :: key in metrics ==> key.k > 0 && metrics[key] == MetricValue(scale, relevant, retrieved, key)
  {
    var deduplicated := Dedup(retrieved);
    metrics := map[];
    var firstRank := FirstRank(relevant, deduplicated);
    for j := 0 to |KS|
      invariant forall key :: key in metrics <==> key.k in KS[..j]
      invariant forall key :: key in metrics ==>
        key.k > 0 && metrics[key] == MetricValue(scale, relevant, retrieved, key)
    {
      var k := KS[j];
      assert KS[..j + 1] == KS[..j] + [k];
      var row := MetricsAt(scale, relevant, retrieved, deduplicated, firstRank, k);
      metrics := metrics + map m | m in row :: MetricKey(m, k) := row[m];
      forall key ensures key in metrics <==> key.k in KS[..j + 1] {
        if key.k == k {
          assert key.metric in row;
        }
      }
    }
    assert KS[..|KS|] == KS;
  }

  lemma {:induction false} FoundIsSmall(js: seq<Judgement>, docs: seq<DocId>)
    ensures |Found(js, docs)| <= |docs|
    ensures Found(js, docs) <= Ids(js)
    ensures |Found(js, docs)| <= |Ids(js)|
  {
    if docs == [] {
    } else {
      FoundIsSmall(js, docs[1..]);
      assert Found(js, docs) <= Found(js, docs[1..]) + {docs[0]};
      SubsetSize(Found(js, docs), Found(js, docs[1..]) + {docs[0]});
    }
    SubsetSize(Found(js, docs), Ids(js));
  }

  lemma ShareOf(n: nat, m: nat)
    requires n <= m && m > 0
    ensures 0.0 <= Ratio(n, m) <= 1.0
    ensures Ratio(n, m) == 1.0 <==> n == m
    ensures Ratio(n, m) == 0.0 <==> n == 0
  {
  }

  /** A figure that is a share of `m` counts the same when multiplied by `m`. */
  lemma ShareCounts(figure: real, n: nat, m: nat)
    requires if m > 0 then figure == Ratio(n, m) else n == 0
    ensures figure * m as real == n as real
  {
  }

  /** The judged documents among the first `k` distinct ones. */
  ghost function JudgedAmong(js: seq<Judgement>, retrieved: seq<DocId>, k: nat): set<DocId> {
    set d | d in Ids(js) && d in Take(Dedup(retrieved), k)
  }

  /** The first judged document of the deduplicated list stands on rank `i + 1`. */
  ghost predicate FirstJudgedAt(js: seq<Judgement>, retrieved: seq<DocId>, i: nat) {
    && i < |Dedup(retrieved)| && Dedup(retrieved)[i] in Ids(js)
    && forall j :: 0 <= j < i ==> Dedup(retrieved)[j] !in Ids(js)
  }

  /** The reciprocal rank is that of the first judged document, if it is among the first `k`, else 0. */
  lemma ReciprocalRankIs(scale: Scale, js: Judgements, retrieved: seq<DocId>, k: nat)
    requires k > 0
    ensures
      var value := MetricValue(scale, js, retrieved, MetricKey(Mrr, k));
      && (forall i: nat :: i < k && FirstJudgedAt(js, retrieved, i) ==> value * (i + 1) as real == 1.0)
      && (JudgedAmong(js, retrieved, k) == {} ==> value == 0.0)
  {
    hide Dedup, Ndcg;
    var docs := Dedup(retrieved);
    forall i: nat | i < k && FirstJudgedAt(js, retrieved, i)
      ensures MetricValue(scale, js, retrieved, MetricKey(Mrr, k)) * (i + 1) as real == 1.0
    {
      var first := FirstRank(js, docs);
      assert docs[i] in docs;
      assert first.Some? && first.value == i + 1;
    }
    FirstRankDecidesHit(js, docs, k);
    assert Found(js, Take(docs, k)) == JudgedAmong(js, retrieved, k);
  }

  /**
    Hit rate, precision and recall in terms of the judged documents among the first `k` distinct ones,
    and nDCG where the ideal gain is 0.
   */
  lemma ValuesOfMetrics(scale: Scale, js: Judgements, retrieved: seq<DocId>, k: nat)
    requires k > 0
    ensures
      var found := JudgedAmong(js, retrieved, k);
      && MetricValue(scale, js, retrieved, MetricKey(HitRate, k)) == (if found == {} then 0.0 else 1.0)
      && MetricValue(scale, js, retrieved, MetricKey(Precision, k)) * k as real == |found| as real
      && MetricValue(scale, js, retrieved, MetricKey(Recall, k)) * |Ids(js)| as real == |found| as real
      && (js == [] ==> MetricValue(scale, js, retrieved, MetricKey(Recall, k)) == 0.0)
      && (Dcg(scale, Ideal(js, k)) == 0.0 ==> MetricValue(scale, js, retrieved, MetricKey(NdcgScore, k)) == 0.0)
  {
    hide Dedup, Dcg, Ideal, FirstRank, Ratio;
    var docs := Dedup(retrieved);
    assert Found(js, Take(docs, k)) == JudgedAmong(js, retrieved, k);
    FoundIsSmall(js, Take(docs, k));
    PrecisionAndRecallCountTheSame(scale, js, retrieved, k);
    ShareCounts(MetricValue(scale, js, retrieved, MetricKey(Precision, k)), |JudgedAmong(js, retrieved, k)|, k);
  }

  /** Precision and recall count the same documents. */
  lemma PrecisionAndRecallCountTheSame(scale: Scale, js: Judgements, retrieved: seq<DocId>, k: nat)
    requires k > 0
    ensures MetricValue(scale, js, retrieved, MetricKey(Recall, k)) * |Ids(js)| as real
         == MetricValue(scale, js, retrieved, MetricKey(Precision, k)) * k as real
  {
    hide Dedup, Found, Ndcg, Ratio, FirstRank, Take, Ids;
    var n := |Found(js, Take(Dedup(retrieved), k))|;
    FoundIsSmall(js, Take(Dedup(retrieved), k));
    ShareCounts(MetricValue(scale, js, retrieved, MetricKey(Precision, k)), n, k);
    ShareCounts(MetricValue(scale, js, retrieved, MetricKey(Recall, k)), n, |Ids(js)|);
  }

  /** A hit, a positive recall, a positive precision and a positive reciprocal rank are one event. */
  lemma HitIsOneEvent(scale: Scale, js: Judgements, retrieved: seq<DocId>, k: nat)
    requires k > 0
    ensures
      var hit := MetricValue(scale, js, retrieved, MetricKey(HitRate, k));
      forall m :: m in {Recall, Precision, Mrr} ==>
        var value := MetricValue(scale, js, retrieved, MetricKey(m, k));
        0.0 <= value <= hit <= 1.0 && (hit == 1.0 <==> value > 0.0)
  {
    var docs := Dedup(retrieved);
    var top := Take(docs, k);
    var found := Found(js, top);
    FoundIsSmall(js, top);
    ShareOf(|found|, k);
    if Ids(js) != {} {
      ShareOf(|found|, |Ids(js)|);
    }
    FirstRankDecidesHit(js, docs, k);
    var first := FirstRank(js, docs);
    if first.Some? {
      ShareOf(1, first.value);
    }
  }

  lemma FirstRankDecidesHit(js: seq<Judgement>, docs: seq<DocId>, k: nat)
    ensures Found(js, Take(docs, k)) != {} <==> FirstRank(js, docs).Some? && FirstRank(js, docs).value <= k
  {
    var top := Take(docs, k);
    var first := FirstRank(js, docs);
    if first.Some? && first.value <= k {
      assert top[first.value - 1] in Found(js, top);
    }
    if Found(js, top) != {} {
      var d :| d in Found(js, top);
      var i :| 0 <= i < |top| && top[i] == d;
      assert docs[i] in Ids(js);
    }
  }

  /** Full recall means that every judged document was shown. */
  lemma FullRecallIff(scale: Scale, js: Judgements, retrieved: seq<DocId>, k: nat)
    requires k > 0
    ensures MetricValue(scale, js, retrieved, MetricKey(Recall, k)) == 1.0
            <==> js != [] && forall d :: d in Ids(js) ==> d in Take(Dedup(retrieved), k)
  {
    var top := Take(Dedup(retrieved), k);
    var found := Found(js, top);
    FoundIsSmall(js, top);
    if js != [] {
      assert js[0].doc in Ids(js);
      ShareOf(|found|, |Ids(js)|);
      SubsetSize(found, Ids(js));
      if forall d :: d in Ids(js) ==> d in top {
        assert found == Ids(js);
      }
      if found == Ids(js) {
        forall d | d in Ids(js) ensures d in top {
          assert d in found;
        }
      }
    }
  }

  lemma RatioMonotone(n: nat, n': nat, m: nat)
    requires n <= n' && m > 0
    ensures Ratio(n, m) <= Ratio(n', m)
  {
  }

  /** Looking further down the list never lowers the hit rate, the recall or the reciprocal rank. */
  lemma MetricsGrowWithCutoff(scale: Scale, js: Judgements, retrieved: seq<DocId>, metric: Metric, k: nat, k': nat)
    requires 0 < k <= k'
    requires metric in {HitRate, Recall, Mrr}
    ensures MetricValue(scale, js, retrieved, MetricKey(metric, k))
         <= MetricValue(scale, js, retrieved, MetricKey(metric, k'))
  {
    var docs := Dedup(retrieved);
    var a, b := Found(js, Take(docs, k)), Found(js, Take(docs, k'));
    forall d | d in a ensures d in b {
      var i :| 0 <= i < |Take(docs, k)| && Take(docs, k)[i] == d;
      assert Take(docs, k')[i] == d;
    }
    SubsetSize(a, b);
    if metric == Recall && Ids(js) != {} {
      RatioMonotone(|a|, |b|, |Ids(js)|);
    }
    match FirstRank(js, docs)
    case Some(n) => ShareOf(1, n);
    case None =>
  }
}
