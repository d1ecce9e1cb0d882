/** Ranking an observed quest title against a fixed catalog, and the OCR vocabulary score. */
module TitleMatch {
  import opened Wrappers
  import opened EditDistance

  const SIMILARITY_FLOOR := 0.82
  const UNIQUENESS_MARGIN := 0.08
  const MINIMUM_ACTION_CONFIDENCE := 0.75
  const MAX_TITLE := 128

  datatype Quest = Quest(id: string, name: string)

  datatype Verdict =
    | Found(quest: Quest, confidence: real)
    | NotFound
    | Uncertain
    | InvalidConfidence

  /** How `normalize` reads an on-screen text is a parameter throughout. */
  type Normalizer = string -> string

  function Score(normalize: Normalizer, observed: string, q: Quest): real {
    Similarity(normalize(observed), normalize(q.name))
  }

  // ---- Ranking ----

  datatype Scored<T> = Scored(item: T, score: real)

  predicate Descending<T>(s: seq<Scored<T>>) {
    forall i, j :: 0 <= i < j < |s| ==> s[i].score >= s[j].score
  }

  /** A stable insertion into a descending list. */
  function Insert<T>(s: seq<Scored<T>>, x: Scored<T>): seq<Scored<T>> {
    if s == [] || s[|s| - 1].score >= x.score then s + [x] else Insert(s[..|s| - 1], x) + [s[|s| - 1]]
  }

  lemma {:induction false} InsertAdds<T>(s: seq<Scored<T>>, x: Scored<T>)
    ensures multiset(Insert(s, x)) == multiset(s) + multiset{x} && |Insert(s, x)| == |s| + 1
  {
    if s != [] && s[|s| - 1].score < x.score {
      InsertAdds(s[..|s| - 1], x);
      assert s == s[..|s| - 1] + [s[|s| - 1]];
    }
  }

  predicate AllAtLeast<T>(s: seq<Scored<T>>, bound: real) {
    forall i :: 0 <= i < |s| ==> s[i].score >= bound
  }

  lemma {:induction false} InsertAtLeast<T>(s: seq<Scored<T>>, x: Scored<T>, bound: real)
    requires AllAtLeast(s, bound) && x.score >= bound
    ensures AllAtLeast(Insert(s, x), bound)
  {
    if s != [] && s[|s| - 1].score < x.score {
      InsertAtLeast(s[..|s| - 1], x, bound);
    }
  }

  lemma {:induction false} InsertKeepsOrder<T>(s: seq<Scored<T>>, x: Scored<T>)
    requires Descending(s)
    ensures Descending(Insert(s, x))
  {
    if s != [] && s[|s| - 1].score < x.score {
      InsertKeepsOrder(s[..|s| - 1], x);
      InsertAtLeast(s[..|s| - 1], x, s[|s| - 1].score);
    }
  }

  /** The stable descending sort of the scored candidates. */
  function Sort<T>(s: seq<Scored<T>>): seq<Scored<T>> {
    if s == [] then [] else Insert(Sort(s[..|s| - 1]), s[|s| - 1])
  }

  lemma {:induction false} SortSorts<T>(s: seq<Scored<T>>)
    ensures Descending(Sort(s)) && |Sort(s)| == |s| && multiset(Sort(s)) == multiset(s)
  {
    if s != [] {
      var init, x := s[..|s| - 1], s[|s| - 1];
      SortSorts(init);
      InsertAdds(Sort(init), x);
      InsertKeepsOrder(Sort(init), x);
      assert s == init + [x];
    }
  }

  /** Candidate `i` reaches the floor and leaves every other candidate at least the margin behind. */
  ghost predicate Winner(normalize: Normalizer, catalog: seq<Quest>, observed: string, i: nat)
    requires i < |catalog|
  {
    && Score(normalize, observed, catalog[i]) >= SIMILARITY_FLOOR
    && forall j :: 0 <= j < |catalog| && j != i ==>
         Score(normalize, observed, catalog[i]) - Score(normalize, observed, catalog[j]) >= UNIQUENESS_MARGIN
  }

  /** The verdict names the winner, with the OCR confidence scaled by its similarity. */
  ghost predicate FoundAt(normalize: Normalizer, catalog: seq<Quest>, observed: string, ocr: Number, v: Verdict, i: nat)
    requires i < |catalog| && ocr.Finite? && v.Found?
  {
    && Winner(normalize, catalog, observed, i)
    && v.quest == catalog[i] && v.confidence == ocr.value * Score(normalize, observed, catalog[i])
  }

  /** The checks made before any candidate is scored. */
  function Gate(normalize: Normalizer, catalog: Option<seq<Quest>>, observed: string, ocr: Number): Option<Verdict> {
    if catalog.None? then Some(Uncertain)
    else if !InUnit(ocr) then Some(InvalidConfidence)
    else if normalize(observed) == "" then Some(NotFound)
    else if |normalize(observed)| > MAX_TITLE then Some(Uncertain)
    else if ocr.value < MINIMUM_ACTION_CONFIDENCE then Some(Uncertain)
    else None
  }

  /** Past the gate, a title is found exactly when the catalog has a winner, which it then is. */
  method DetectQuestTitle(normalize: Normalizer, catalog: Option<seq<Quest>>, observed: string, ocr: Number)
    returns (v: Verdict)
    ensures Gate(normalize, catalog, observed, ocr).Some? ==> v == Gate(normalize, catalog, observed, ocr).value
    ensures Gate(normalize, catalog, observed, ocr).None? && catalog.value == [] ==> v == NotFound
    ensures Gate(normalize, catalog, observed, ocr).None? && catalog.value != [] ==>
      if v.Found?
      then exists i :: 0 <= i < |catalog.value| && FoundAt(normalize, catalog.value, observed, ocr, v, i)
      else v.Uncertain? && forall i :: 0 <= i < |catalog.value| ==> !Winner(normalize, catalog.value, observed, i)
  {
    var gate := Gate(normalize, catalog, observed, ocr);
    if gate.Some? {
      return gate.value;
    }
    var quests := catalog.value;
    if quests == [] {
      return NotFound;
    }
    var best, runnerUp := BestTwo(normalize, quests, observed);
    if best.score < SIMILARITY_FLOOR || best.score - runnerUp < UNIQUENESS_MARGIN {
      return Uncertain;
    }
    v := Found(quests[best.item], ocr.value * best.score);
    assert FoundAt(normalize, quests, observed, ocr, v, best.item);
  }

  /** The first two of the sorted scores; comparing them decides whether there is a winner. */
  method BestTwo(normalize: Normalizer, quests: seq<Quest>, observed: string)
    returns (best: Scored<nat>, runnerUp: real)
    requires quests != []
    ensures best.item < |quests| && best.score == Score(normalize, observed, quests[best.item])
    ensures if best.score >= SIMILARITY_FLOOR && best.score - runnerUp >= UNIQUENESS_MARGIN
      then Winner(normalize, quests, observed, best.item)
      else forall i :: 0 <= i < |quests| ==> !Winner(normalize, quests, observed, i)
  {
    var scored := ScoreAll(normalize, quests, observed);
    var sorted := Sort(scored);
    SortSorts(scored);
    Decide(normalize, quests, observed, scored);
    best := sorted[0];
    runnerUp := RunnerUp(sorted);
  }

  method ScoreAll(normalize: Normalizer, quests: seq<Quest>, observed: string) returns (scored: seq<Scored<nat>>)
    ensures |scored| == |quests|
    ensures forall i :: 0 <= i < |quests| ==> scored[i] == Scored(i, Score(normalize, observed, quests[i]))
  {
    scored := [];
    for n := 0 to |quests|
      invariant |scored| == n
      invariant forall i :: 0 <= i < n ==> scored[i] == Scored(i, Score(normalize, observed, quests[i]))
    {
      scored := scored + [Scored(n, Score(normalize, observed, quests[n]))];
    }
  }

  function RunnerUp(sorted: seq<Scored<nat>>): real {
    if |sorted| > 1 then sorted[1].score else 0.0
  }

  /** Comparing the first two sorted scores decides whether there is a winner. */
  lemma Decide(normalize: Normalizer, catalog: seq<Quest>, observed: string, scored: seq<Scored<nat>>)
    requires catalog != [] && |scored| == |catalog|
    requires forall i :: 0 <= i < |catalog| ==> scored[i] == Scored(i, Score(normalize, observed, catalog[i]))
    ensures var s := Sort(scored);
      && |s| == |catalog| && 0 <= s[0].item < |catalog| && s[0].score == Score(normalize, observed, catalog[s[0].item])
      && (if s[0].score >= SIMILARITY_FLOOR && s[0].score - RunnerUp(s) >= UNIQUENESS_MARGIN
          then Winner(normalize, catalog, observed, s[0].item)
          else forall i :: 0 <= i < |catalog| ==> !Winner(normalize, catalog, observed, i))
  {
    Ranked(scored);
    var s := Sort(scored);
    if s[0].score >= SIMILARITY_FLOOR && s[0].score - RunnerUp(s) >= UNIQUENESS_MARGIN {
      assert Winner(normalize, catalog, observed, s[0].item);
    } else {
      forall i | 0 <= i < |catalog| ensures !Winner(normalize, catalog, observed, i) {
        var rival := if i != s[0].item then s[0].item else if |s| > 1 then s[1].item else i;
        assert scored[i].score <= s[0].score;
        assert rival != i ==>
          scored[i].score - scored[rival].score < UNIQUENESS_MARGIN || scored[i].score < SIMILARITY_FLOOR;
      }
    }
  }

  /** A sorted list of the scores of items that are their own indices. */
  ghost predicate Ranking(scored: seq<Scored<nat>>, s: seq<Scored<nat>>) {
    && scored != [] && (forall i :: 0 <= i < |scored| ==> scored[i].item == i)
    && Descending(s) && |s| == |scored| && multiset(s) == multiset(scored)
  }

  lemma Indexed(scored: seq<Scored<nat>>, s: seq<Scored<nat>>, k: nat)
    requires Ranking(scored, s) && k < |s|
    ensures 0 <= s[k].item < |scored| && s[k] == scored[s[k].item]
  {
    InBoth(scored, s, k);
  }

  lemma FirstIsMax(scored: seq<Scored<nat>>, s: seq<Scored<nat>>, j: nat)
    requires Ranking(scored, s) && j < |scored|
    ensures scored[j].score <= s[0].score
  {
    InBoth(s, scored, j);
  }

  lemma SecondDiffers(scored: seq<Scored<nat>>, s: seq<Scored<nat>>)
    requires Ranking(scored, s) && |s| > 1
    ensures s[1] != s[0]
  {
    Indexed(scored, s, 0);
    OnlyOnce(scored, s[0].item);
    Without(s, 0);
    assert (s[..0] + s[1..])[0] == s[1];
    assert s[1] in multiset(s[..0] + s[1..]);
  }

  lemma SecondIsMaxOfRest(scored: seq<Scored<nat>>, s: seq<Scored<nat>>, j: nat)
    requires Ranking(scored, s) && |s| > 1 && j < |scored| && scored[j] != s[0]
    ensures scored[j].score <= s[1].score
  {
    InBoth(s, scored, j);
    var k :| 0 <= k < |s| && s[k] == scored[j];
    assert k >= 1;
  }

  /** Of indexed scores, the first sorted one is a maximum and the second the maximum of the rest. */
  lemma Ranked(scored: seq<Scored<nat>>)
    requires scored != [] && forall i :: 0 <= i < |scored| ==> scored[i].item == i
    ensures var s := Sort(scored);
      && |s| == |scored| && 0 <= s[0].item < |scored| && s[0] == scored[s[0].item]
      && (forall j :: 0 <= j < |scored| ==> scored[j].score <= s[0].score)
      && (|s| > 1 ==>
            && 0 <= s[1].item < |scored| && s[1] == scored[s[1].item] && s[1].item != s[0].item
            && forall j :: 0 <= j < |scored| && j != s[0].item ==> scored[j].score <= s[1].score)
  {
    var s := Sort(scored);
    SortSorts(scored);
    Indexed(scored, s, 0);
    forall j | 0 <= j < |scored| ensures scored[j].score <= s[0].score {
      FirstIsMax(scored, s, j);
    }
    if |s| > 1 {
      Indexed(scored, s, 1);
      SecondDiffers(scored, s);
      forall j | 0 <= j < |scored| && j != s[0].item ensures scored[j].score <= s[1].score {
        SecondIsMaxOfRest(scored, s, j);
      }
    }
  }

  lemma InBoth<T>(s: seq<T>, t: seq<T>, k: nat)
    requires multiset(s) == multiset(t) && k < |t|
    ensures t[k] in s
  {
    assert t[k] in multiset(t);
  }

  lemma OnlyOnce(scored: seq<Scored<nat>>, i: nat)
    requires i < |scored| && forall j :: 0 <= j < |scored| ==> scored[j].item == j
    ensures multiset(scored)[scored[i]] == 1
  {
    assert scored == scored[..i] + ([scored[i]] + scored[i + 1..]);
    assert scored[i] !in scored[..i] && scored[i] !in scored[i + 1..];
  }

  lemma WinnerIsUnique(normalize: Normalizer, catalog: seq<Quest>, observed: string, i: nat, j: nat)
    requires i < |catalog| && j < |catalog|
    requires Winner(normalize, catalog, observed, i) && Winner(normalize, catalog, observed, j)
    ensures i == j
  {
  }

  lemma Without<T>(s: seq<T>, i: nat)
    requires i < |s|
    ensures multiset(s[..i] + s[i + 1..]) == multiset(s) - multiset{s[i]}
  {
    assert s == s[..i] + ([s[i]] + s[i + 1..]);
  }

  /** In two arrangements of the same elements, besides an equal pair the others occur too. */
  lemma Others<T>(s: seq<T>, t: seq<T>, i: nat, j: nat, m: nat) returns (k: nat)
    requires multiset(s) == multiset(t) && i < |s| && j < |t| && s[i] == t[j] && m < |t| && m != j
    ensures k < |s| && k != i && s[k] == t[m]
  {
    Without(s, i);
    Without(t, j);
    var restS, restT := s[..i] + s[i + 1..], t[..j] + t[j + 1..];
    var n := if m < j then m else m - 1;
    assert restT[n] == t[m];
    InBoth(restS, restT, n);
    k :| 0 <= k < |restS| && restS[k] == t[m];
    k := if k < i then k else k + 1;
  }

  /** Detection does not depend on the catalog's order. */
  lemma OrderIndependent(normalize: Normalizer, c1: seq<Quest>, c2: seq<Quest>, observed: string, i: nat)
    returns (j: nat)
    requires multiset(c1) == multiset(c2) && i < |c1| && Winner(normalize, c1, observed, i)
    ensures j < |c2| && c2[j] == c1[i] && Winner(normalize, c2, observed, j)
  {
    InBoth(c2, c1, i);
    j :| 0 <= j < |c2| && c2[j] == c1[i];
    forall m | 0 <= m < |c2| && m != j
      ensures Score(normalize, observed, c2[j]) - Score(normalize, observed, c2[m]) >= UNIQUENESS_MARGIN
    {
      var k := Others(c1, c2, i, j, m);
    }
  }

  /** A title read exactly is found iff no other catalog title is more similar to it than 0.92. */
  lemma ExactReadingFound(normalize: Normalizer, catalog: seq<Quest>, observed: string, i: nat)
    requires i < |catalog| && normalize(observed) == normalize(catalog[i].name)
    ensures Score(normalize, observed, catalog[i]) == 1.0
    ensures Winner(normalize, catalog, observed, i) <==>
      forall j :: 0 <= j < |catalog| && j != i ==> Score(normalize, observed, catalog[j]) <= 0.92
    ensures !Winner(normalize, catalog, observed, i) ==>
      forall j :: 0 <= j < |catalog| ==> !Winner(normalize, catalog, observed, j)
  {
    SimilarityInUnit(normalize(observed), normalize(catalog[i].name));
    forall j | 0 <= j < |catalog| && j != i
      ensures Score(normalize, observed, catalog[j]) <= 1.0
      ensures !Winner(normalize, catalog, observed, j)
    {
      SimilarityInUnit(normalize(observed), normalize(catalog[j].name));
      assert Winner(normalize, catalog, observed, j) ==>
        Score(normalize, observed, catalog[j]) - Score(normalize, observed, catalog[i]) >= UNIQUENESS_MARGIN;
    }
  }

  // ---- The OCR vocabulary score ----

  /** The two largest similarities seen so far, after one more. */
  function Keep(scores: (real, real), x: real): (real, real) {
    if x > scores.0 then (x, scores.0) else (scores.0, if scores.1 >= x then scores.1 else x)
  }

  /** One pass that keeps the two largest similarities seen, starting from zeros. */
  function TopTwo(sims: seq<real>): (real, real) {
    if sims == [] then (0.0, 0.0) else Keep(TopTwo(sims[..|sims| - 1]), sims[|sims| - 1])
  }

  function Gone(scores: (real, real), x: real): real {
    if x > scores.1 then scores.1 else x
  }

  /** What the pass lets go of: everything but the two values it keeps. */
  function LetGo(sims: seq<real>): multiset<real> {
    if sims == [] then multiset{}
    else LetGo(sims[..|sims| - 1]) + multiset{Gone(TopTwo(sims[..|sims| - 1]), sims[|sims| - 1])}
  }

  lemma {:induction false} LetGoIsBelow(sims: seq<real>)
    requires forall i :: 0 <= i < |sims| ==> 0.0 <= sims[i]
    ensures TopTwo(sims).0 >= TopTwo(sims).1 >= 0.0
    ensures forall x <- LetGo(sims) :: x <= TopTwo(sims).1
  {
    if sims != [] {
      LetGoIsBelow(sims[..|sims| - 1]);
    }
  }

  lemma {:induction false} NothingLost(sims: seq<real>)
    requires forall i :: 0 <= i < |sims| ==> 0.0 <= sims[i]
    ensures multiset(sims) + multiset{0.0, 0.0} == Pair(TopTwo(sims)) + LetGo(sims)
  {
    if sims != [] {
      var x, init := sims[|sims| - 1], sims[..|sims| - 1];
      NothingLost(init);
      LetGoIsBelow(init);
      assert sims == init + [x];
      Exchange(TopTwo(init), x);
      Rearrange(multiset(init), multiset{0.0, 0.0}, multiset{x}, Pair(TopTwo(init)), LetGo(init),
                Pair(Keep(TopTwo(init), x)), multiset{Gone(TopTwo(init), x)});
    }
  }

  function Pair(scores: (real, real)): multiset<real> {
    multiset{scores.0, scores.1}
  }

  /** The pass yields the two largest values of the multiset padded with two zeros. */
  lemma TopTwoAreLargest(sims: seq<real>)
    requires forall i :: 0 <= i < |sims| ==> 0.0 <= sims[i]
    ensures multiset(sims) + multiset{0.0, 0.0} == Pair(TopTwo(sims)) + LetGo(sims)
    ensures TopTwo(sims).0 >= TopTwo(sims).1 >= 0.0
    ensures forall x <- LetGo(sims) :: x <= TopTwo(sims).1
  {
    NothingLost(sims);
    LetGoIsBelow(sims);
  }

  lemma Rearrange(init: multiset<real>, padding: multiset<real>, x: multiset<real>, before: multiset<real>,
                  letGo: multiset<real>, after: multiset<real>, gone: multiset<real>)
    requires init + padding == before + letGo && before + x == after + gone
    ensures init + x + padding == after + (letGo + gone)
  {
    forall r: real ensures (init + x + padding)[r] == (after + (letGo + gone))[r] {
      assert (init + padding)[r] == (before + letGo)[r] && (before + x)[r] == (after + gone)[r];
    }
  }

  lemma Exchange(before: (real, real), x: real)
    requires before.0 >= before.1
    ensures Pair(before) + multiset{x} == Pair(Keep(before, x)) + multiset{Gone(before, x)}
  {
  }

  function CountIf(s: seq<string>, p: string -> bool): nat {
    if s == [] then 0 else CountIf(s[..|s| - 1], p) + if p(s[|s| - 1]) then 1 else 0
  }

  function Similarities(observed: string, vocabulary: seq<string>): seq<real> {
    seq(|vocabulary|, i requires 0 <= i < |vocabulary| => Similarity(observed, vocabulary[i]))
  }

  /** The confidence of a reading, from already normalized and non-empty vocabulary entries;
      `contains` says whether an entry appears whole in the reading. */
  function VocabularyConfidence(observed: string, vocabulary: seq<string>, contains: (string, string) -> bool): real {
    if observed == "" then 0.0
    else
      var exact := CountIf(vocabulary, c => c == observed);
      if exact == 1 then 0.92
      else if exact > 1 then 0.5
      else if CountIf(vocabulary, c => contains(observed, c)) == 1 then 0.88
      else
        var (best, runnerUp) := TopTwo(Similarities(observed, vocabulary));
        if best >= 0.82 && best - runnerUp >= 0.08 then 0.78 + (best - 0.82) / (1.0 - 0.82) * 0.12 else 0.5
  }

  /** Exactly one entry satisfies `p`. */
  ghost predicate JustOne(s: seq<string>, p: string -> bool) {
    exists i :: 0 <= i < |s| && p(s[i]) && forall j :: 0 <= j < |s| && j != i ==> !p(s[j])
  }

  lemma {:induction false} CountedExactly(s: seq<string>, p: string -> bool)
    ensures CountIf(s, p) == 0 <==> forall i :: 0 <= i < |s| ==> !p(s[i])
    ensures CountIf(s, p) == 1 <==> JustOne(s, p)
  {
    if s != [] {
      var init, last := s[..|s| - 1], |s| - 1;
      CountedExactly(init, p);
      assert forall i :: 0 <= i < last ==> init[i] == s[i];
      if CountIf(s, p) == 1 {
        var i :| 0 <= i < |s| && p(s[i]);
        assert forall j :: 0 <= j < |s| && j != i ==> !p(s[j]) by {
          if i != last {
            assert p(init[i]);
          }
        }
      }
      if JustOne(s, p) {
        var i :| 0 <= i < |s| && p(s[i]) && forall j :: 0 <= j < |s| && j != i ==> !p(s[j]);
        if i != last {
          assert p(init[i]);
        }
      }
    }
  }

  /** One value reaches the floor and leads every other one by the margin. */
  ghost predicate Leads(sims: seq<real>, i: nat) {
    i < |sims| && sims[i] >= 0.82 && forall j :: 0 <= j < |sims| && j != i ==> sims[i] - sims[j] >= 0.08
  }

  /** Where the two kept values come from; the second is the padding zero if it has no index. */
  lemma {:induction false} TopTwoAt(sims: seq<real>) returns (best: nat, runnerUp: Option<nat>)
    requires sims != [] && forall i :: 0 <= i < |sims| ==> 0.0 <= sims[i]
    ensures best < |sims| && sims[best] == TopTwo(sims).0
    ensures forall j :: 0 <= j < |sims| && j != best ==> sims[j] <= TopTwo(sims).1
    ensures match runnerUp
      case None => TopTwo(sims).1 == 0.0
      case Some(r) => r < |sims| && r != best && sims[r] == TopTwo(sims).1
  {
    var init, last := sims[..|sims| - 1], |sims| - 1;
    best, runnerUp := last, None;
    if init != [] {
      best, runnerUp := TopTwoAt(init);
      LetGoIsBelow(init);
      if sims[last] > TopTwo(init).0 {
        best, runnerUp := last, Some(best);
      } else if sims[last] > TopTwo(init).1 {
        runnerUp := Some(last);
      }
    }
  }

  /** The pass accepts its two values exactly when some entry leads all the others. */
  lemma TopTwoDecides(sims: seq<real>)
    requires forall i :: 0 <= i < |sims| ==> 0.0 <= sims[i]
    ensures TopTwo(sims).0 >= 0.82 && TopTwo(sims).0 - TopTwo(sims).1 >= 0.08 <==> exists i :: Leads(sims, i)
  {
    if sims != [] {
      var best, runnerUp := TopTwoAt(sims);
      LetGoIsBelow(sims);
      if TopTwo(sims).0 >= 0.82 && TopTwo(sims).0 - TopTwo(sims).1 >= 0.08 {
        assert Leads(sims, best);
      }
      if i :| Leads(sims, i) {
        assert i == best;
      }
    }
  }

  /** A vocabulary entry near the reading: similar enough, and more so than any other by a margin. */
  ghost predicate Near(observed: string, vocabulary: seq<string>, i: nat) {
    && i < |vocabulary| && Similarity(observed, vocabulary[i]) >= 0.82
    && forall j :: 0 <= j < |vocabulary| && j != i ==>
      Similarity(observed, vocabulary[i]) - Similarity(observed, vocabulary[j]) >= 0.08
  }

  lemma NearDecides(observed: string, vocabulary: seq<string>)
    ensures var (best, runnerUp) := TopTwo(Similarities(observed, vocabulary));
      && best <= 1.0
      && (best >= 0.82 && best - runnerUp >= 0.08 <==> exists i :: Near(observed, vocabulary, i))
  {
    var sims := Similarities(observed, vocabulary);
    forall i | 0 <= i < |sims| ensures 0.0 <= sims[i] <= 1.0 {
      SimilarityInUnit(observed, vocabulary[i]);
    }
    TopBelow(sims);
    TopTwoDecides(sims);
    forall i: nat ensures Leads(sims, i) <==> Near(observed, vocabulary, i) {
      NearIsLeading(observed, vocabulary, i);
    }
  }

  lemma NearIsLeading(observed: string, vocabulary: seq<string>, i: nat)
    ensures Leads(Similarities(observed, vocabulary), i) <==> Near(observed, vocabulary, i)
  {
    var sims := Similarities(observed, vocabulary);
    if i < |vocabulary| {
      assert forall j :: 0 <= j < |vocabulary| ==> sims[j] == Similarity(observed, vocabulary[j]);
    }
  }

  /** A reading reaches the action threshold exactly when it fits one entry uniquely: equal to just
      one; or equal to none, and containing just one or near one that leads all the others. */
  lemma ActionableReadingIsUnique(observed: string, vocabulary: seq<string>, contains: (string, string) -> bool)
    requires observed != ""
    ensures var confidence := VocabularyConfidence(observed, vocabulary, contains);
      && 0.5 <= confidence <= 0.92
      && (confidence >= MINIMUM_ACTION_CONFIDENCE <==>
          || JustOne(vocabulary, c => c == observed)
          || (observed !in vocabulary
              && (JustOne(vocabulary, c => contains(observed, c)) || exists i :: Near(observed, vocabulary, i))))
  {
    NearDecides(observed, vocabulary);
    CountedExactly(vocabulary, c => c == observed);
    CountedExactly(vocabulary, c => contains(observed, c));
  }

  /** The three tiers of an actionable confidence: equal before contained before near, and among near
      readings the closer one is the surer. */
  lemma ConfidenceTiers(observed: string, vocabulary: seq<string>, contains: (string, string) -> bool)
    requires observed != ""
    ensures var confidence := VocabularyConfidence(observed, vocabulary, contains);
      && (JustOne(vocabulary, c => c == observed) ==> confidence == 0.92)
      && (observed !in vocabulary && JustOne(vocabulary, c => contains(observed, c)) ==> confidence == 0.88)
      && (observed !in vocabulary && !JustOne(vocabulary, c => contains(observed, c)) ==>
            var best := TopTwo(Similarities(observed, vocabulary)).0;
            if exists i :: Near(observed, vocabulary, i)
            then 0.78 <= confidence <= 0.90 && (confidence - 0.78) * 0.18 == (best - 0.82) * 0.12
            else confidence == 0.5)
  {
    NearDecides(observed, vocabulary);
    CountedExactly(vocabulary, c => c == observed);
    CountedExactly(vocabulary, c => contains(observed, c));
  }

  lemma {:induction false} TopBelow(sims: seq<real>)
    requires forall i :: 0 <= i < |sims| ==> sims[i] <= 1.0
    ensures TopTwo(sims).0 <= 1.0
  {
    if sims != [] {
      TopBelow(sims[..|sims| - 1]);
    }
  }
}
