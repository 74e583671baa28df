/**
  Document selection of the benchmark pack: all relevant documents, then hard negatives taken
  round-robin over the queries, then arbitrary corpus documents, until the cap is reached.

  The hash order of `stable_order` and the full-text candidate search are parameters.
 */
module PackBuilder {
  import opened Collections
  import opened Corpus
  import opened Wrappers

  type QueryId = string

  datatype Split = Tuning | Test

  datatype QueryItem = QueryItem(queryId: QueryId, query: string, split: Split, relevant: map<DocId, real>)

  datatype Pack = Pack(items: seq<QueryItem>, documents: set<DocId>, positives: set<DocId>)

  datatype PackError =
    | TooFewQueries(found: nat)
    | MissingDocuments(missing: set<DocId>)
    | TooManyPositives(count: nat)

  const RANKS: nat := 80

  // ---------------------------------------------------------------- what is selected

  function ToSet<T>(s: seq<T>): set<T> {
    set x | x in s
  }

  function Min(a: nat, b: nat): nat {
    if a <= b then a else b
  }

  /** `hard.get(item.query_id, [])` */
  function Candidates(hard: map<QueryId, seq<DocId>>, item: QueryItem): seq<DocId> {
    if item.queryId in hard then hard[item.queryId] else []
  }

  /** The candidates at one rank, in query order. */
  function Round(items: seq<QueryItem>, hard: map<QueryId, seq<DocId>>, rank: nat): seq<DocId> {
    if items == [] then
      []
    else
      var candidates := Candidates(hard, items[0]);
      (if rank < |candidates| then [candidates[rank]] else []) + Round(items[1..], hard, rank)
  }

  /** The candidates of the ranks from `low` up to `high`, rank by rank. */
  function Rounds(items: seq<QueryItem>, hard: map<QueryId, seq<DocId>>, low: nat, high: nat): seq<DocId>
    decreases high - low
  {
    if low >= high then [] else Round(items, hard, low) + Rounds(items, hard, low + 1, high)
  }

  /** Adds documents in order and stops right after the addition that reaches the cap. */
  function AddUntil(selected: set<DocId>, docs: seq<DocId>, cap: int): set<DocId>
    decreases docs
  {
    if docs == [] then
      selected
    else
      var next := selected + {docs[0]};
      if |next| >= cap then next else AddUntil(next, docs[1..], cap)
  }

  function Select(positives: set<DocId>, negatives: seq<DocId>, rest: seq<DocId>, cap: int): set<DocId> {
    var selected := AddUntil(positives, negatives, cap);
    if |selected| < cap then AddUntil(selected, rest, cap) else selected
  }

  function Positives(items: seq<QueryItem>, corpus: set<DocId>): set<DocId> {
    set i, doc | 0 <= i < |items| && doc in items[i].relevant && doc in corpus :: doc
  }

  function Missing(items: seq<QueryItem>, corpus: set<DocId>): set<DocId> {
    set i, doc | 0 <= i < |items| && doc in items[i].relevant && doc !in corpus :: doc
  }

  /** The first `queryCount` eligible queries; the first `tuningCount` of them are for tuning. */
  function Items(order: seq<QueryId>, queries: map<QueryId, string>, qrels: map<QueryId, map<DocId, real>>,
                 queryCount: nat, tuningCount: int): (items: seq<QueryItem>)
    requires forall q :: q in order ==> q in queries && q in qrels
    requires queryCount <= |order|
    ensures |items| == queryCount
    ensures forall i :: 0 <= i < queryCount ==>
      && items[i].queryId == order[i] && (items[i].split == Tuning <==> i < tuningCount)
      && items[i].query == queries[order[i]] && items[i].relevant == qrels[order[i]]
  {
    seq(queryCount, i requires 0 <= i < queryCount =>
      assert order[i] in order;
      QueryItem(order[i], queries[order[i]], if i < tuningCount then Tuning else Test, qrels[order[i]]))
  }

  ghost function TuningItems(items: seq<QueryItem>): nat {
    if items == [] then 0
    else TuningItems(items[..|items| - 1]) + if items[|items| - 1].split == Tuning then 1 else 0
  }

  lemma {:induction false} FirstAreTuning(items: seq<QueryItem>, tuningCount: int)
    requires forall i :: 0 <= i < |items| ==> (items[i].split == Tuning <==> i < tuningCount)
    ensures TuningItems(items) == if tuningCount < 0 then 0 else Min(tuningCount, |items|)
  {
    if items == [] {
    } else {
      FirstAreTuning(items[..|items| - 1], tuningCount);
    }
  }

  /** The document stands at this rank, below 80, among the candidates of one of the queries. */
  ghost predicate IsCandidate(items: seq<QueryItem>, hard: map<QueryId, seq<DocId>>, doc: DocId, i: nat, rank: nat) {
    && i < |items| && rank < 80 && items[i].queryId in hard
    && rank < |hard[items[i].queryId]| && hard[items[i].queryId][rank] == doc
  }

  lemma {:induction false} RoundHolds(items: seq<QueryItem>, hard: map<QueryId, seq<DocId>>, rank: nat, doc: DocId)
    requires rank < 80
    ensures doc in Round(items, hard, rank) <==> exists i: nat :: IsCandidate(items, hard, doc, i, rank)
  {
    if items == [] {
    } else {
      RoundHolds(items[1..], hard, rank, doc);
      if i: nat :| IsCandidate(items, hard, doc, i, rank) && i > 0 {
        assert IsCandidate(items[1..], hard, doc, i - 1, rank);
      }
      if i: nat :| IsCandidate(items[1..], hard, doc, i, rank) {
        assert items[1..][i] == items[i + 1];
        assert IsCandidate(items, hard, doc, i + 1, rank);
      }
      assert IsCandidate(items, hard, doc, 0, rank) <==>
             rank < |Candidates(hard, items[0])| && Candidates(hard, items[0])[rank] == doc;
    }
  }

  lemma {:induction false} RoundsHold(items: seq<QueryItem>, hard: map<QueryId, seq<DocId>>, low: nat, doc: DocId)
    requires low <= RANKS
    ensures doc in Rounds(items, hard, low, RANKS) <==>
            exists i: nat, rank: nat :: IsCandidate(items, hard, doc, i, rank) && low <= rank
    decreases RANKS - low
  {
    hide IsCandidate, Round, Candidates;
    if low == RANKS {
      CandidatesAreBelow(items, hard, doc);
    } else {
      RoundsHold(items, hard, low + 1, doc);
      RoundHolds(items, hard, low, doc);
      if i: nat, rank: nat :| IsCandidate(items, hard, doc, i, rank) && low <= rank {
        assert rank == low || low + 1 <= rank;
      }
    }
  }

  lemma CandidatesAreBelow(items: seq<QueryItem>, hard: map<QueryId, seq<DocId>>, doc: DocId)
    ensures forall i: nat, rank: nat :: IsCandidate(items, hard, doc, i, rank) ==> rank < RANKS
  {
  }

  /** One of the first `n` queries has a judgement of the document. */
  ghost predicate IsJudged(order: seq<QueryId>, qrels: map<QueryId, map<DocId, real>>, n: nat, doc: DocId) {
    exists i :: 0 <= i < n && i < |order| && order[i] in qrels && doc in qrels[order[i]]
  }

  lemma JudgedOfItems(items: seq<QueryItem>, order: seq<QueryId>, qrels: map<QueryId, map<DocId, real>>,
      corpus: set<DocId>)
    requires |items| <= |order|
    requires forall i :: 0 <= i < |items| ==> order[i] in qrels && items[i].relevant == qrels[order[i]]
    ensures forall doc :: doc in Positives(items, corpus) <==> IsJudged(order, qrels, |items|, doc) && doc in corpus
    ensures forall doc :: doc in Missing(items, corpus) <==> IsJudged(order, qrels, |items|, doc) && doc !in corpus
  {
  }

  /** `_build_pack`, up to writing the selected documents to disk. */
  method BuildPack(corpus: set<DocId>, queries: map<QueryId, string>, qrels: map<QueryId, map<DocId, real>>,
                   order: seq<QueryId>, hard: map<QueryId, seq<DocId>>, rest: seq<DocId>,
                   queryCount: nat, tuningCount: int, cap: int)
    returns (r: Result<Pack, PackError>)
    requires forall q :: q in order <==> q in qrels && q in queries && qrels[q] != map[]
    requires ToSet(rest) == corpus
    ensures queryCount > |order| <==> r == Failure(TooFewQueries(|order|))
    ensures queryCount <= |order| ==>
      var items := Items(order, queries, qrels, queryCount, tuningCount);
      var positives := Positives(items, corpus);
      r == if Missing(items, corpus) != {} then Failure(MissingDocuments(Missing(items, corpus)))
           else if |positives| > cap then Failure(TooManyPositives(|positives|))
           else Success(Pack(items, Select(positives, Rounds(items, hard, 0, RANKS), rest, cap), positives))
    ensures r.Success? ==>
      && |r.value.items| == queryCount
      && (forall i :: 0 <= i < queryCount ==>
            r.value.items[i].queryId == order[i] && (r.value.items[i].split == Tuning <==> i < tuningCount))
      && TuningItems(r.value.items) == (if tuningCount < 0 then 0 else Min(tuningCount, queryCount))
      && forall doc :: IsJudged(order, qrels, queryCount, doc) <==> doc in r.value.positives
    ensures r.Failure? && r.error.MissingDocuments? ==>
      forall doc :: doc in r.error.missing <==> IsJudged(order, qrels, queryCount, doc) && doc !in corpus
  {
    if queryCount > |order| {
      return Failure(TooFewQueries(|order|));
    }
    var items := Items(order, queries, qrels, queryCount, tuningCount);
    FirstAreTuning(items, tuningCount);
    var positives := Positives(items, corpus);
    var missing := Missing(items, corpus);
    JudgedOfItems(items, order, qrels, corpus);
    if missing != {} {
      return Failure(MissingDocuments(missing));
    }
    if |positives| > cap {
      return Failure(TooManyPositives(|positives|));
    }
    var selected := AddHardNegatives(positives, items, hard, cap);
    if |selected| < cap {
      selected := AddRest(selected, rest, cap);
    }
    return Success(Pack(items, selected, positives));
  }

  /** The nested loops over ranks and queries, with a break out of each. */
  method AddHardNegatives(positives: set<DocId>, items: seq<QueryItem>, hard: map<QueryId, seq<DocId>>, cap: int)
    returns (selected: set<DocId>)
    ensures selected == AddUntil(positives, Rounds(items, hard, 0, RANKS), cap)
  {
    ghost var goal := AddUntil(positives, Rounds(items, hard, 0, RANKS), cap);
    selected := positives;
    var rank := 0;
    while rank < RANKS
      invariant rank <= RANKS
      invariant goal == AddUntil(selected, Rounds(items, hard, rank, RANKS), cap)
      invariant rank > 0 ==> |selected| < cap
    {
      ghost var before := selected;
      selected := AddRound(selected, items, hard, rank, cap);
      AddUntilConcat(before, Round(items, hard, rank), Rounds(items, hard, rank + 1, RANKS), cap);
      if |selected| >= cap {
        if Round(items, hard, rank) == [] {
          EmptyRoundsFollow(items, hard, rank, RANKS);
        }
        break;
      }
      rank := rank + 1;
    }
  }

  /** One pass over the queries. */
  method AddRound(initial: set<DocId>, items: seq<QueryItem>, hard: map<QueryId, seq<DocId>>, rank: nat, cap: int)
    returns (selected: set<DocId>)
    ensures selected == AddUntil(initial, Round(items, hard, rank), cap)
  {
    selected := initial;
    for j := 0 to |items|
      invariant AddUntil(initial, Round(items, hard, rank), cap) ==
          AddUntil(selected, Round(items[j..], hard, rank), cap)
    {
      assert items[j..][1..] == items[j + 1..];
      var candidates := Candidates(hard, items[j]);
      if rank < |candidates| {
        assert Round(items[j..], hard, rank)[1..] == Round(items[j + 1..], hard, rank);
        selected := selected + {candidates[rank]};
        if |selected| >= cap {
          return;
        }
      } else {
        assert Round(items[j..], hard, rank) == Round(items[j + 1..], hard, rank);
      }
    }
  }

  method AddRest(initial: set<DocId>, rest: seq<DocId>, cap: int) returns (selected: set<DocId>)
    ensures selected == AddUntil(initial, rest, cap)
  {
    selected := initial;
    for j := 0 to |rest|
      invariant AddUntil(initial, rest, cap) == AddUntil(selected, rest[j..], cap)
    {
      assert rest[j..][1..] == rest[j + 1..];
      selected := selected + {rest[j]};
      if |selected| >= cap {
        return;
      }
    }
  }

  /** Adding two lists in turn: the second is reached only if the first did not fill the cap. */
  lemma {:induction false} AddUntilConcat(selected: set<DocId>, a: seq<DocId>, b: seq<DocId>, cap: int)
    ensures AddUntil(selected, a + b, cap) ==
      if a != [] && |AddUntil(selected, a, cap)| >= cap then AddUntil(selected, a, cap)
      else AddUntil(AddUntil(selected, a, cap), b, cap)
    decreases a
  {
    if a == [] {
      assert a + b == b;
    } else {
      assert (a + b)[1..] == a[1..] + b;
      AddUntilConcat(selected + {a[0]}, a[1..], b, cap);
    }
  }

  lemma {:induction false} EmptyRoundStaysEmpty(items: seq<QueryItem>, hard: map<QueryId, seq<DocId>>,
      rank: nat, later: nat)
    requires Round(items, hard, rank) == [] && rank <= later
    ensures Round(items, hard, later) == []
  {
    if items == [] {
    } else {
      EmptyRoundStaysEmpty(items[1..], hard, rank, later);
    }
  }

  lemma {:induction false} EmptyRoundsFollow(items: seq<QueryItem>, hard: map<QueryId, seq<DocId>>, low: nat, high: nat)
    requires Round(items, hard, low) == []
    ensures Rounds(items, hard, low, high) == []
    decreases high - low
  {
    if low < high {
      EmptyRoundStaysEmpty(items, hard, low, low + 1);
      EmptyRoundsFollow(items, hard, low + 1, high);
    }
  }

  // ---------------------------------------------------------------- sizes

  /** Below the cap, adding a list ends with exactly as many documents as cap and supply allow. */
  lemma {:induction false} AddUntilFills(selected: set<DocId>, docs: seq<DocId>, cap: int)
    requires |selected| < cap
    ensures |AddUntil(selected, docs, cap)| == Min(cap, |selected + ToSet(docs)|)
    ensures selected <= AddUntil(selected, docs, cap) <= selected + ToSet(docs)
    ensures |AddUntil(selected, docs, cap)| < cap ==> AddUntil(selected, docs, cap) == selected + ToSet(docs)
    decreases docs
  {
    if docs == [] {
      assert selected + ToSet(docs) == selected;
    } else {
      var next := selected + {docs[0]};
      assert docs == [docs[0]] + docs[1..];
      assert selected + ToSet(docs) == next + ToSet(docs[1..]);
      assert |next| <= |selected| + 1;
      if |next| >= cap {
        SubsetSize(next, selected + ToSet(docs));
      } else {
        AddUntilFills(next, docs[1..], cap);
      }
    }
  }

  /**
    With fewer positives than the cap, the document set holds exactly min(cap, corpus size) documents,
    every positive among them.
   */
  lemma PackIsExactlyFull(positives: set<DocId>, negatives: seq<DocId>, rest: seq<DocId>, cap: int)
    requires |positives| < cap
    requires positives <= ToSet(rest) && ToSet(negatives) <= ToSet(rest)
    ensures |Select(positives, negatives, rest, cap)| == Min(cap, |ToSet(rest)|)
    ensures positives <= Select(positives, negatives, rest, cap) <= ToSet(rest)
  {
    hide ToSet, AddUntil;
    var selected := AddUntil(positives, negatives, cap);
    AddUntilFills(positives, negatives, cap);
    if |selected| < cap {
      AddUntilFills(selected, rest, cap);
      assert selected + ToSet(rest) == ToSet(rest);
    } else {
      SubsetSize(selected, ToSet(rest));
    }
  }

  /**
    An accepted pack exceeds its cap in one case only: the positives already equal the cap and the
    first hard negative considered is not among them. The excess is then that single document.
   */
  lemma PackExceedsCapIff(positives: set<DocId>, negatives: seq<DocId>, rest: seq<DocId>, cap: int)
    requires |positives| <= cap
    ensures |Select(positives, negatives, rest, cap)| > cap
            <==> |positives| == cap && negatives != [] && negatives[0] !in positives
    ensures |Select(positives, negatives, rest, cap)| <= cap + 1
    ensures |positives| == cap && negatives != [] ==>
      Select(positives, negatives, rest, cap) == positives + {negatives[0]}
  {
    if |positives| == cap {
      if negatives != [] {
        var next := positives + {negatives[0]};
        SubsetSize(positives, next);
        assert negatives[0] in positives ==> next == positives;
        assert negatives[0] !in positives ==> |next| == |positives| + 1;
      }
    } else {
      var selected := AddUntil(positives, negatives, cap);
      AddUntilFills(positives, negatives, cap);
      if |selected| < cap {
        AddUntilFills(selected, rest, cap);
      }
    }
  }

  // ---------------------------------------------------------------- fairness

  /** How many documents of the list are looked at before the cap stops the selection. */
  ghost function Considered(selected: set<DocId>, docs: seq<DocId>, cap: int): (n: nat)
    ensures n <= |docs|
    decreases docs
  {
    if docs == [] then 0
    else
      var next := selected + {docs[0]};
      if |next| >= cap then 1 else 1 + Considered(next, docs[1..], cap)
  }

  lemma PrefixAfterFirst(selected: set<DocId>, docs: seq<DocId>, n: nat)
    requires 0 < n <= |docs|
    ensures selected + ToSet(docs[..n]) == (selected + {docs[0]}) + ToSet(docs[1..][..n - 1])
  {
  }

  /** What is selected is what is considered. */
  lemma {:induction false} SelectedIsConsidered(selected: set<DocId>, docs: seq<DocId>, cap: int)
    ensures AddUntil(selected, docs, cap) == selected + ToSet(docs[..Considered(selected, docs, cap)])
    decreases docs
  {
    if docs == [] {
    } else {
      var next := selected + {docs[0]};
      PrefixAfterFirst(selected, docs, Considered(selected, docs, cap));
      if |next| < cap {
        SelectedIsConsidered(next, docs[1..], cap);
      } else {
        assert docs[1..][..0] == [];
      }
    }
  }

  /** The considered documents are a shortest prefix that reaches the cap. */
  lemma {:induction false} ConsideredIsShortest(selected: set<DocId>, docs: seq<DocId>, cap: int, n: nat)
    requires 0 < n < Considered(selected, docs, cap)
    ensures |selected + ToSet(docs[..n])| < cap
    decreases docs
  {
    PrefixAfterFirst(selected, docs, n);
    if n == 1 {
      assert docs[1..][..0] == [];
      assert selected + ToSet(docs[..n]) == selected + {docs[0]};
    } else {
      ConsideredIsShortest(selected + {docs[0]}, docs[1..], cap, n - 1);
    }
  }

  lemma {:induction false} RoundsSplit(items: seq<QueryItem>, hard: map<QueryId, seq<DocId>>, low: nat,
      mid: nat, high: nat)
    requires low <= mid <= high
    ensures Rounds(items, hard, low, high) == Rounds(items, hard, low, mid) + Rounds(items, hard, mid, high)
    decreases mid - low
  {
    if low < mid {
      RoundsSplit(items, hard, low + 1, mid, high);
    }
  }

  lemma {:induction false} RoundHoldsCandidate(items: seq<QueryItem>, hard: map<QueryId, seq<DocId>>, rank: nat, i: nat)
    requires i < |items| && rank < |Candidates(hard, items[i])|
    ensures Candidates(hard, items[i])[rank] in Round(items, hard, rank)
  {
    if i == 0 {
    } else {
      assert items[1..][i - 1] == items[i];
      RoundHoldsCandidate(items[1..], hard, rank, i - 1);
    }
  }

  lemma {:induction false} RoundsHoldCandidate(
    items: seq<QueryItem>, hard: map<QueryId, seq<DocId>>, low: nat, high: nat, rank: nat, i: nat)
    requires i < |items| && rank < |Candidates(hard, items[i])| && low <= rank < high
    ensures Candidates(hard, items[i])[rank] in Rounds(items, hard, low, high)
    decreases high - low
  {
    if rank == low {
      RoundHoldsCandidate(items, hard, rank, i);
    } else {
      RoundsHoldCandidate(items, hard, low + 1, high, rank, i);
    }
  }

  /**
    No query's candidate of rank `rank` is considered before every query's candidates of the lower
    ranks: if one is considered at all, all of those are in the document set.
   */
  lemma RoundRobinIsFair(
    positives: set<DocId>, items: seq<QueryItem>, hard: map<QueryId, seq<DocId>>, cap: int, rank: nat,
        lower: nat, i: nat)
    requires lower < rank <= RANKS
    requires Considered(positives, Rounds(items, hard, 0, RANKS), cap) > |Rounds(items, hard, 0, rank)|
    requires i < |items| && lower < |Candidates(hard, items[i])|
    ensures Candidates(hard, items[i])[lower] in AddUntil(positives, Rounds(items, hard, 0, RANKS), cap)
  {
    var all, early := Rounds(items, hard, 0, RANKS), Rounds(items, hard, 0, rank);
    RoundsSplit(items, hard, 0, rank, RANKS);
    SelectedIsConsidered(positives, all, cap);
    RoundsHoldCandidate(items, hard, 0, rank, lower, i);
    var n := Considered(positives, all, cap);
    var k :| 0 <= k < |early| && early[k] == Candidates(hard, items[i])[lower];
    assert all[..n][k] == early[k];
  }

  lemma {:induction false} RoundComesFrom(
    items: seq<QueryItem>, hard: map<QueryId, seq<DocId>>, corpus: set<DocId>, rank: nat)
    requires forall q :: q in hard ==> ToSet(hard[q]) <= corpus
    ensures ToSet(Round(items, hard, rank)) <= corpus
  {
    if items == [] {
    } else {
      RoundComesFrom(items[1..], hard, corpus, rank);
      var candidates := Candidates(hard, items[0]);
      assert rank < |candidates| ==> candidates[rank] in ToSet(candidates);
    }
  }

  lemma {:induction false} RoundsComeFrom(
    items: seq<QueryItem>, hard: map<QueryId, seq<DocId>>, corpus: set<DocId>, low: nat, high: nat)
    requires forall q :: q in hard ==> ToSet(hard[q]) <= corpus
    ensures ToSet(Rounds(items, hard, low, high)) <= corpus
    decreases high - low
  {
    if low < high {
      RoundComesFrom(items, hard, corpus, low);
      RoundsComeFrom(items, hard, corpus, low + 1, high);
    }
  }

  /**
    Of every accepted pack: below the cap it is exactly full and holds every positive; at the cap
    it holds the positives and at most one document more.
   */
  lemma AcceptedPack(items: seq<QueryItem>, hard: map<QueryId, seq<DocId>>, corpus: set<DocId>,
      rest: seq<DocId>, cap: int)
    requires Missing(items, corpus) == {} && |Positives(items, corpus)| <= cap
    requires forall q :: q in hard ==> ToSet(hard[q]) <= corpus
    requires ToSet(rest) == corpus
    ensures
      var positives := Positives(items, corpus);
      var documents := Select(positives, Rounds(items, hard, 0, RANKS), rest, cap);
      && positives <= documents <= corpus
      && (|positives| < cap ==> |documents| == Min(cap, |corpus|))
      && (|positives| == cap ==> |documents| <= cap + 1)
  {
    var positives, negatives := Positives(items, corpus), Rounds(items, hard, 0, RANKS);
    RoundsComeFrom(items, hard, corpus, 0, RANKS);
    if |positives| < cap {
      PackIsExactlyFull(positives, negatives, rest, cap);
    } else {
      PackExceedsCapIff(positives, negatives, rest, cap);
      if negatives != [] {
        assert negatives[0] in ToSet(negatives);
      }
    }
  }
}
