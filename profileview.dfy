/** The progress profile (components/ProfileView.tsx): the 20 most used
    words, the 5 most frequent grammar mistakes, the fluency chart and the
    wording under each mistake. The profile record itself is not declared by
    types.ts; the fields read here are declared in this module. */
module ProfileView {
  import opened Ranking

  /** One fluency score, from 0 to 10. */
  datatype FluencyPoint = FluencyPoint(score: real)

  datatype GrammarPoint = GrammarPoint(corrected: string, explanation: string, count: int)

  /** The vocabulary is a record from word to count; it is held here as its
      entries, each word once. */
  datatype UserProfile = UserProfile(vocabulary: seq<(string, int)>,
                                     grammarPoints: seq<GrammarPoint>,
                                     fluencyHistory: seq<FluencyPoint>)

  const VocabularyShown: nat := 20
  const GrammarShown: nat := 5

  function WordCount(entry: (string, int)): int
  {
    entry.1
  }

  function MistakeCount(point: GrammarPoint): int
  {
    point.count
  }

  /** The words shown, most used first. */
  function TopVocabulary(profile: UserProfile): seq<(string, int)>
  {
    Top(profile.vocabulary, VocabularyShown, WordCount)
  }

  /** The grammar points shown, most frequent first. */
  function TopGrammar(profile: UserProfile): seq<GrammarPoint>
  {
    Top(profile.grammarPoints, GrammarShown, MistakeCount)
  }

  /** At most 20 words are shown, all of them from the profile, most used
      first, and no word left out was used more often than one shown. */
  lemma {:induction false} TopVocabularyIsTop(profile: UserProfile)
    ensures var r := TopVocabulary(profile);
      |r| == (if |profile.vocabulary| < 20 then |profile.vocabulary| else 20) &&
      multiset(r) <= multiset(profile.vocabulary) &&
      (forall i, j :: 0 <= i < j < |r| ==> r[i].1 >= r[j].1) &&
      forall e :: e in multiset(profile.vocabulary) - multiset(r) ==>
        forall i :: 0 <= i < |r| ==> e.1 <= r[i].1
  {
    var r := TopVocabulary(profile);
    TopDominates(profile.vocabulary, VocabularyShown, WordCount);
    forall i, j | 0 <= i < j < |r|
      ensures r[i].1 >= r[j].1
    {
      assert WordCount(r[i]) >= WordCount(r[j]);
    }
    forall e | e in multiset(profile.vocabulary) - multiset(r)
      ensures forall i :: 0 <= i < |r| ==> e.1 <= r[i].1
    {
      forall i | 0 <= i < |r|
        ensures e.1 <= r[i].1
      {
        assert WordCount(e) <= WordCount(r[i]);
      }
    }
  }

  /** At most 5 grammar points are shown, all from the profile, most
      frequent first, and none left out was made more often than one shown. */
  lemma {:induction false} TopGrammarIsTop(profile: UserProfile)
    ensures var r := TopGrammar(profile);
      |r| == (if |profile.grammarPoints| < 5 then |profile.grammarPoints| else 5) &&
      multiset(r) <= multiset(profile.grammarPoints) &&
      (forall i, j :: 0 <= i < j < |r| ==> r[i].count >= r[j].count) &&
      forall p :: p in multiset(profile.grammarPoints) - multiset(r) ==>
        forall i :: 0 <= i < |r| ==> p.count <= r[i].count
  {
    var r := TopGrammar(profile);
    TopDominates(profile.grammarPoints, GrammarShown, MistakeCount);
    forall i, j | 0 <= i < j < |r|
      ensures r[i].count >= r[j].count
    {
      assert MistakeCount(r[i]) >= MistakeCount(r[j]);
    }
    forall p | p in multiset(profile.grammarPoints) - multiset(r)
      ensures forall i :: 0 <= i < |r| ==> p.count <= r[i].count
    {
      forall i | 0 <= i < |r|
        ensures p.count <= r[i].count
      {
        assert MistakeCount(p) <= MistakeCount(r[i]);
      }
    }
  }

  /** The vocabulary list is empty, and its placeholder shown instead,
      exactly when the profile has no words. */
  lemma {:induction false} VocabularyPlaceholder(profile: UserProfile)
    ensures TopVocabulary(profile) == [] <==> profile.vocabulary == []
  {
  }

  /** The profile shows the chart when the history has more than one point,
      and the chart itself draws nothing for fewer than two. */
  predicate ProfileShowsChart(history: seq<FluencyPoint>)
  {
    |history| > 1
  }

  predicate ChartDrawsSomething(history: seq<FluencyPoint>)
  {
    !(|history| < 2)
  }

  /** The two guards agree: whenever the profile asks for the chart, the
      chart draws it, and otherwise the encouragement text is shown. */
  lemma {:induction false} ChartGuardsAgree(history: seq<FluencyPoint>)
    ensures ProfileShowsChart(history) <==> ChartDrawsSomething(history)
    ensures ProfileShowsChart(history) <==> |history| >= 2
  {
  }

  const ChartWidth: real := 500.0
  const ChartHeight: real := 150.0
  const ChartPadding: real := 20.0

  /** The horizontal position of the point at `index`: the points are spread
      evenly between the left and the right padding. */
  function ChartX(index: int, count: int): (x: real)
    requires count >= 2 && 0 <= index < count
    ensures index == 0 ==> x == ChartPadding
    ensures index == count - 1 ==> x == ChartWidth - ChartPadding
  {
    (index as real / (count - 1) as real) * (ChartWidth - 2.0 * ChartPadding) + ChartPadding
  }

  /** The vertical position of a score on the scale from 0 to 10: 0 on the
      bottom line, 10 on the top one. */
  function ChartY(score: real): (y: real)
    ensures score == 0.0 ==> y == ChartHeight - ChartPadding
    ensures score == 10.0 ==> y == ChartPadding
  {
    ChartHeight - ChartPadding - (score / 10.0) * (ChartHeight - 2.0 * ChartPadding)
  }

  /** Later points lie further right, and they stay inside the padding. */
  lemma {:induction false} ChartXIncreasing(i: int, j: int, count: int)
    requires count >= 2 && 0 <= i < j < count
    ensures ChartPadding <= ChartX(i, count) < ChartX(j, count) <= ChartWidth - ChartPadding
  {
    var n := (count - 1) as real;
    assert i as real / n < j as real / n;
    assert j as real / n <= 1.0;
    assert 0.0 <= i as real / n;
  }

  /** A higher score is drawn higher up, and a score from 0 to 10 stays
      between the top and the bottom line. */
  lemma {:induction false} ChartYOrdered(s: real, t: real)
    requires s < t
    ensures ChartY(t) < ChartY(s)
    ensures 0.0 <= s && t <= 10.0 ==> ChartPadding <= ChartY(t) && ChartY(s) <= ChartHeight - ChartPadding
  {
  }

  /** The unit under a mistake's count: "time", plural above one. */
  function TimesUnit(count: int): (u: string)
    ensures |u| >= 4 && u[..4] == "time"
  {
    "time" + (if count > 1 then "s" else "")
  }

  /** The unit is plural exactly when the count is above one. */
  lemma {:induction false} TimesUnitPlural(count: int)
    ensures |TimesUnit(count)| == (if count > 1 then 5 else 4)
    ensures TimesUnit(count)[|TimesUnit(count)| - 1] == 's' <==> count > 1
  {
    assert "time"[3] == 'e';
  }
}
