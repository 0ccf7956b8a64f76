/** `analyzeResults`: the eleven (skill, score) pairs sorted ascending by
    score with a stable sort, the three lowest-scoring skills as strengths and
    the three highest-scoring as weaknesses (a lower score means better
    functioning). */
module Analysis {
  import opened Questionnaire

  /** One `{ skill, score }` item of `sortedScores`. */
  datatype Entry = Entry(skill: Skill, score: int)

  /** `Object.entries(scores)`: a score record built by `calculateCategoryScores`
      enumerates its keys in declaration order. */
  function Entries(scores: CategoryScores): seq<Entry>
    requires Complete(scores)
  {
    seq(SkillCount, i requires 0 <= i < SkillCount => Entry(AllSkills[i], scores[AllSkills[i]]))
  }

  /** Stable insertion: `x` goes in front of the first entry whose score is at
      least its own, so it stays ahead of every later entry with an equal score. */
  function Insert(x: Entry, sorted: seq<Entry>): (r: seq<Entry>)
    ensures |r| == |sorted| + 1
  {
    if sorted == [] || x.score <= sorted[0].score then [x] + sorted
    else [sorted[0]] + Insert(x, sorted[1..])
  }

  /** `.sort((a, b) => a.score - b.score)`; `Array.prototype.sort` is stable. */
  function SortByScore(s: seq<Entry>): (r: seq<Entry>)
    ensures |r| == |s|
  {
    if s == [] then [] else Insert(s[0], SortByScore(s[1..]))
  }

  ghost predicate Ascending(s: seq<Entry>) {
    forall i, j :: 0 <= i < j < |s| ==> s[i].score <= s[j].score
  }

  /** Ascending score, ties broken by declaration order. */
  predicate Precedes(a: Entry, b: Entry) {
    a.score < b.score || (a.score == b.score && SkillIndex(a.skill) < SkillIndex(b.skill))
  }

  ghost predicate StrictlyOrdered(s: seq<Entry>) {
    forall i, j :: 0 <= i < j < |s| ==> Precedes(s[i], s[j])
  }

  ghost predicate InDeclarationOrder(s: seq<Entry>) {
    forall i, j :: 0 <= i < j < |s| ==> SkillIndex(s[i].skill) < SkillIndex(s[j].skill)
  }

  lemma {:induction false} InsertPermutes(x: Entry, s: seq<Entry>)
    ensures multiset(Insert(x, s)) == multiset{x} + multiset(s)
    decreases |s|
  {
    if s != [] && x.score > s[0].score {
      InsertPermutes(x, s[1..]);
      assert s == [s[0]] + s[1..];
    }
  }

  /** The sort rearranges its input: same entries, same multiplicities. */
  lemma {:induction false} SortPermutes(s: seq<Entry>)
    ensures multiset(SortByScore(s)) == multiset(s)
  {
    if s != [] {
      SortPermutes(s[1..]);
      InsertPermutes(s[0], SortByScore(s[1..]));
      assert s == [s[0]] + s[1..];
    }
  }

  lemma {:induction false} InsertAscending(x: Entry, s: seq<Entry>)
    requires Ascending(s)
    ensures Ascending(Insert(x, s))
    decreases |s|
  {
    if s != [] && x.score > s[0].score {
      InsertAscending(x, s[1..]);
      InsertPermutes(x, s[1..]);
      var t := Insert(x, s[1..]);
      forall k | 0 <= k < |t| ensures s[0].score <= t[k].score {
        assert t[k] in multiset(t);
        if t[k] != x {
          assert t[k] in multiset(s[1..]);
        }
      }
    }
  }

  /** The sort's output is non-decreasing by score. */
  lemma {:induction false} SortAscending(s: seq<Entry>)
    ensures Ascending(SortByScore(s))
  {
    if s != [] {
      SortAscending(s[1..]);
      InsertAscending(s[0], SortByScore(s[1..]));
    }
  }

  lemma {:induction false} InsertOrdered(x: Entry, s: seq<Entry>)
    requires StrictlyOrdered(s)
    requires forall k :: 0 <= k < |s| ==> SkillIndex(x.skill) < SkillIndex(s[k].skill)
    ensures StrictlyOrdered(Insert(x, s))
    decreases |s|
  {
    if s != [] && x.score > s[0].score {
      InsertOrdered(x, s[1..]);
      InsertPermutes(x, s[1..]);
      var t := Insert(x, s[1..]);
      forall k | 0 <= k < |t| ensures Precedes(s[0], t[k]) {
        assert t[k] in multiset(t);
        if t[k] != x {
          assert t[k] in multiset(s[1..]);
          var m :| 0 <= m < |s[1..]| && s[1..][m] == t[k];
          assert s[m + 1] == t[k];
        }
      }
    }
  }

  /** Stability: when the input lists skills in declaration order, the output
      is ordered by score and, among equal scores, by declaration order. */
  lemma {:induction false} SortStable(s: seq<Entry>)
    requires InDeclarationOrder(s)
    ensures StrictlyOrdered(SortByScore(s))
  {
    if s != [] {
      SortStable(s[1..]);
      SortPermutes(s[1..]);
      var t := SortByScore(s[1..]);
      forall k | 0 <= k < |t| ensures SkillIndex(s[0].skill) < SkillIndex(t[k].skill) {
        assert t[k] in multiset(t);
        var m :| 0 <= m < |s[1..]| && s[1..][m] == t[k];
        assert s[m + 1] == t[k];
      }
      InsertOrdered(s[0], t);
    }
  }

  /** `Precedes` is a strict total order on entries: at most one of two
      entries precedes the other, and of two different entries one does. */
  lemma PrecedesTotal(a: Entry, b: Entry)
    ensures !(Precedes(a, b) && Precedes(b, a))
    ensures a != b ==> Precedes(a, b) || Precedes(b, a)
  {
    if a != b && a.score == b.score {
      assert a.skill != b.skill;
      assert AllSkills[SkillIndex(a.skill)] == a.skill;
      assert AllSkills[SkillIndex(b.skill)] == b.skill;
    }
  }

  /** Two strictly ordered arrangements of the same entries start alike. */
  lemma SameHead(a: seq<Entry>, b: seq<Entry>)
    requires StrictlyOrdered(a) && StrictlyOrdered(b)
    requires multiset(a) == multiset(b)
    requires a != []
    ensures b != [] && a[0] == b[0]
  {
    assert a[0] in multiset(b);
    var j :| 0 <= j < |b| && b[j] == a[0];
    assert b[0] in multiset(a);
    var i :| 0 <= i < |a| && a[i] == b[0];
    assert i == 0 || Precedes(a[0], b[0]);
    assert j == 0 || Precedes(b[0], a[0]);
    PrecedesTotal(a[0], b[0]);
  }

  lemma TailMultiset(s: seq<Entry>)
    requires s != []
    ensures multiset(s[1..]) == multiset(s) - multiset{s[0]}
  {
    assert s == [s[0]] + s[1..];
  }

  /** There is only one strictly ordered arrangement of a multiset of entries. */
  lemma {:induction false} OrderedArrangementUnique(a: seq<Entry>, b: seq<Entry>)
    requires StrictlyOrdered(a) && StrictlyOrdered(b)
    requires multiset(a) == multiset(b)
    ensures a == b
    decreases |a|
  {
    if a != [] {
      SameHead(a, b);
      TailMultiset(a);
      TailMultiset(b);
      OrderedArrangementUnique(a[1..], b[1..]);
      assert a == [a[0]] + a[1..] && b == [b[0]] + b[1..];
    } else {
      assert |multiset(b)| == 0;
    }
  }

  /** The entries of a score record, in declaration order. */
  lemma EntriesShape(scores: CategoryScores)
    requires Complete(scores)
    ensures |Entries(scores)| == SkillCount
    ensures InDeclarationOrder(Entries(scores))
    ensures forall e: Entry :: e in Entries(scores) <==> e.skill in scores && e.score == scores[e.skill]
  {
    var es := Entries(scores);
    forall i, j | 0 <= i < j < |es| ensures SkillIndex(es[i].skill) < SkillIndex(es[j].skill) {
      AllSkillsIndexed(i);
      AllSkillsIndexed(j);
    }
    forall e: Entry | e.skill in scores && e.score == scores[e.skill] ensures e in es {
      assert es[SkillIndex(e.skill)] == e;
    }
  }

  /** What `analyzeResults` returns. */
  datatype Result = Result(strengths: seq<Skill>, weaknesses: seq<Skill>, sortedScores: seq<Entry>)

  /** `.map(item => item.skill)`. */
  function SkillsOf(es: seq<Entry>): (r: seq<Skill>)
    ensures |r| == |es| && forall i :: 0 <= i < |es| ==> r[i] == es[i].skill
  {
    if es == [] then [] else [es[0].skill] + SkillsOf(es[1..])
  }

  /** `a.slice(0, 3)`: the first three elements, or all of a shorter list. */
  function First3<T>(a: seq<T>): (r: seq<T>)
    ensures |r| == (if |a| <= 3 then |a| else 3)
    ensures r == a[..|r|]
  {
    if |a| <= 3 then a else a[..3]
  }

  /** `a.slice(-3)`: the last three elements, or all of a shorter list. */
  function Last3<T>(a: seq<T>): (r: seq<T>)
    ensures |r| == (if |a| <= 3 then |a| else 3)
    ensures r == a[|a| - |r|..]
  {
    if |a| <= 3 then a else a[|a| - 3..]
  }

  /** `analyzeResults`. */
  function AnalyzeResults(scores: CategoryScores): (r: Result)
    requires Complete(scores)
    ensures |r.sortedScores| == SkillCount
    ensures |r.strengths| == 3 && |r.weaknesses| == 3
  {
    var sorted := SortByScore(Entries(scores));
    Result(SkillsOf(First3(sorted)), SkillsOf(Last3(sorted)), sorted)
  }

  /** `sortedScores` is a rearrangement of the eleven (skill, score) pairs,
      ordered by score with ties in declaration order; it is the only such
      arrangement. */
  lemma SortedScoresSpec(scores: CategoryScores)
    requires Complete(scores)
    ensures var sorted := AnalyzeResults(scores).sortedScores;
      && |sorted| == SkillCount
      && multiset(sorted) == multiset(Entries(scores))
      && Ascending(sorted)
      && StrictlyOrdered(sorted)
      && forall other: seq<Entry> ::
           multiset(other) == multiset(Entries(scores)) && StrictlyOrdered(other) ==> other == sorted
  {
    var es := Entries(scores);
    var sorted := SortByScore(es);
    EntriesShape(scores);
    SortPermutes(es);
    SortStable(es);
    assert |sorted| == |multiset(sorted)| == |es|;
    forall i, j | 0 <= i < j < |sorted| ensures sorted[i].score <= sorted[j].score {
      assert Precedes(sorted[i], sorted[j]);
    }
    forall other: seq<Entry> | multiset(other) == multiset(es) && StrictlyOrdered(other)
      ensures other == sorted
    {
      OrderedArrangementUnique(other, sorted);
    }
  }

  /** Every skill occurs exactly once in `sortedScores`, with its own score. */
  lemma SortedScoresCover(scores: CategoryScores)
    requires Complete(scores)
    ensures var sorted := AnalyzeResults(scores).sortedScores;
      && (forall k :: 0 <= k < |sorted| ==> sorted[k].score == scores[sorted[k].skill])
      && (forall t: Skill :: t in SkillsOf(sorted))
      && (forall i, j :: 0 <= i < j < |sorted| ==> sorted[i].skill != sorted[j].skill)
  {
    var es := Entries(scores);
    var sorted := AnalyzeResults(scores).sortedScores;
    EntriesShape(scores);
    SortedScoresSpec(scores);
    forall k | 0 <= k < |sorted| ensures sorted[k].score == scores[sorted[k].skill] {
      assert sorted[k] in multiset(es);
    }
    forall t: Skill ensures t in SkillsOf(sorted) {
      var e := Entry(t, scores[t]);
      assert e in multiset(sorted);
      var k :| 0 <= k < |sorted| && sorted[k] == e;
      assert SkillsOf(sorted)[k] == t;
    }
    forall i, j | 0 <= i < j < |sorted| ensures sorted[i].skill != sorted[j].skill {
      assert Precedes(sorted[i], sorted[j]);
    }
  }

  /** Strengths are the first three skills of `sortedScores` and weaknesses the
      last three, both still in ascending order; with eleven skills the two
      lists are disjoint. */
  lemma StrengthsAndWeaknesses(scores: CategoryScores)
    requires Complete(scores)
    ensures var a := AnalyzeResults(scores);
      && |a.sortedScores| == SkillCount
      && |a.strengths| == 3 && |a.weaknesses| == 3
      && (forall i :: 0 <= i < 3 ==> a.strengths[i] == a.sortedScores[i].skill)
      && (forall i :: 0 <= i < 3 ==> a.weaknesses[i] == a.sortedScores[SkillCount - 3 + i].skill)
      && (forall i, j :: 0 <= i < 3 && 0 <= j < 3 ==> a.strengths[i] != a.weaknesses[j])
  {
    SortedScoresSpec(scores);
    SortedScoresCover(scores);
  }

  /** Every strength scores no higher than any skill that is not a strength. */
  lemma StrengthsScoreLowest(scores: CategoryScores)
    requires Complete(scores)
    ensures var a := AnalyzeResults(scores);
      forall s, t :: s in a.strengths && t !in a.strengths ==> scores[s] <= scores[t]
  {
    var a := AnalyzeResults(scores);
    var sorted := a.sortedScores;
    var names := SkillsOf(sorted);
    SortedScoresSpec(scores);
    SortedScoresCover(scores);
    StrengthsAndWeaknesses(scores);
    forall s, t | s in a.strengths && t !in a.strengths ensures scores[s] <= scores[t] {
      var i :| 0 <= i < 3 && a.strengths[i] == s;
      assert t in names;
      var j :| 0 <= j < |sorted| && names[j] == t;
      assert sorted[i].score <= sorted[j].score;
    }
  }

  /** Every weakness scores no lower than any skill that is not a weakness. */
  lemma WeaknessesScoreHighest(scores: CategoryScores)
    requires Complete(scores)
    ensures var a := AnalyzeResults(scores);
      forall s, t :: s in a.weaknesses && t !in a.weaknesses ==> scores[s] >= scores[t]
  {
    var a := AnalyzeResults(scores);
    var sorted := a.sortedScores;
    var names := SkillsOf(sorted);
    SortedScoresSpec(scores);
    SortedScoresCover(scores);
    StrengthsAndWeaknesses(scores);
    forall s, t | s in a.weaknesses && t !in a.weaknesses ensures scores[s] >= scores[t] {
      var i :| 0 <= i < 3 && a.weaknesses[i] == s;
      assert t in names;
      var j :| 0 <= j < |sorted| && names[j] == t;
      assert sorted[j].score <= sorted[SkillCount - 3 + i].score;
    }
  }

  /** The category scores of the sample submission used to exercise the
      spreadsheet script: four skills tie at 12, four at 13, three at 15. */
  ghost predicate IsFixture(scores: CategoryScores) {
    && Complete(scores)
    && scores[ResponseInhibition] == 12 && scores[WorkingMemory] == 13
    && scores[EmotionalControl] == 15 && scores[Flexibility] == 12
    && scores[SustainedAttention] == 13 && scores[TaskInitiation] == 15
    && scores[PlanningPrioritizing] == 12 && scores[Organization] == 13
    && scores[TimeManagement] == 15 && scores[GoalDirectedPersistence] == 12
    && scores[Metacognition] == 13
  }

  /** The sample scores in declaration order, and sorted with ties kept in
      declaration order. */
  const FixtureEntries: seq<Entry> := [
    Entry(ResponseInhibition, 12), Entry(WorkingMemory, 13), Entry(EmotionalControl, 15),
    Entry(Flexibility, 12), Entry(SustainedAttention, 13), Entry(TaskInitiation, 15),
    Entry(PlanningPrioritizing, 12), Entry(Organization, 13), Entry(TimeManagement, 15),
    Entry(GoalDirectedPersistence, 12), Entry(Metacognition, 13)
  ]

  const FixtureSorted: seq<Entry> := [
    Entry(ResponseInhibition, 12), Entry(Flexibility, 12), Entry(PlanningPrioritizing, 12),
    Entry(GoalDirectedPersistence, 12), Entry(WorkingMemory, 13), Entry(SustainedAttention, 13),
    Entry(Organization, 13), Entry(Metacognition, 13), Entry(EmotionalControl, 15),
    Entry(TaskInitiation, 15), Entry(TimeManagement, 15)
  ]

  lemma FixtureEntriesAre(scores: CategoryScores)
    requires IsFixture(scores)
    ensures Entries(scores) == FixtureEntries
  {
  }

  /** The stable insertion sort on the sample, one insertion at a time from
      the back: the last four entries. */
  lemma FixtureSortsBack()
    ensures var e := FixtureEntries;
      var ri, wm, ec, fl := e[0], e[1], e[2], e[3];
      var sa, ti, pp, og := e[4], e[5], e[6], e[7];
      var tm, gd, mc := e[8], e[9], e[10];
      SortByScore(e[7..]) == [gd, og, mc, tm]
  {
    var e := FixtureEntries;
    var ri, wm, ec, fl := e[0], e[1], e[2], e[3];
    var sa, ti, pp, og := e[4], e[5], e[6], e[7];
    var tm, gd, mc := e[8], e[9], e[10];
    assert SortByScore(e[10..]) == [mc] by {
      assert e[10..][1..] == e[11..];
      assert Insert(mc, []) == [mc];
    }
    assert SortByScore(e[9..]) == [gd, mc] by {
      assert e[9..][1..] == e[10..];
      assert Insert(gd, [mc]) == [gd, mc];
    }
    assert SortByScore(e[8..]) == [gd, mc, tm] by {
      assert e[8..][1..] == e[9..];
      assert Insert(tm, []) == [tm];
      assert Insert(tm, [mc]) == [mc] + Insert(tm, []);
      assert Insert(tm, [gd, mc]) == [gd] + Insert(tm, [mc]);
    }
    assert SortByScore(e[7..]) == [gd, og, mc, tm] by {
      assert e[7..][1..] == e[8..];
      assert Insert(og, [mc, tm]) == [og, mc, tm];
      assert Insert(og, [gd, mc, tm]) == [gd] + Insert(og, [mc, tm]);
    }
  }

  /** Two more insertions. */
  lemma FixtureSortsMiddleBack()
    ensures var e := FixtureEntries;
      var ri, wm, ec, fl := e[0], e[1], e[2], e[3];
      var sa, ti, pp, og := e[4], e[5], e[6], e[7];
      var tm, gd, mc := e[8], e[9], e[10];
      SortByScore(e[5..]) == [pp, gd, og, mc, ti, tm]
  {
    var e := FixtureEntries;
    var ri, wm, ec, fl := e[0], e[1], e[2], e[3];
    var sa, ti, pp, og := e[4], e[5], e[6], e[7];
    var tm, gd, mc := e[8], e[9], e[10];
    FixtureSortsBack();
    assert SortByScore(e[6..]) == [pp, gd, og, mc, tm] by {
      assert e[6..][1..] == e[7..];
      assert Insert(pp, [gd, og, mc, tm]) == [pp, gd, og, mc, tm];
    }
    assert SortByScore(e[5..]) == [pp, gd, og, mc, ti, tm] by {
      assert e[5..][1..] == e[6..];
      assert Insert(ti, [tm]) == [ti, tm];
      assert Insert(ti, [mc, tm]) == [mc] + Insert(ti, [tm]);
      assert Insert(ti, [og, mc, tm]) == [og] + Insert(ti, [mc, tm]);
      assert Insert(ti, [gd, og, mc, tm]) == [gd] + Insert(ti, [og, mc, tm]);
      assert Insert(ti, [pp, gd, og, mc, tm]) == [pp] + Insert(ti, [gd, og, mc, tm]);
    }
  }

  /** Two more insertions. */
  lemma FixtureSortsMiddle()
    ensures var e := FixtureEntries;
      var ri, wm, ec, fl := e[0], e[1], e[2], e[3];
      var sa, ti, pp, og := e[4], e[5], e[6], e[7];
      var tm, gd, mc := e[8], e[9], e[10];
      SortByScore(e[3..]) == [fl, pp, gd, sa, og, mc, ti, tm]
  {
    var e := FixtureEntries;
    var ri, wm, ec, fl := e[0], e[1], e[2], e[3];
    var sa, ti, pp, og := e[4], e[5], e[6], e[7];
    var tm, gd, mc := e[8], e[9], e[10];
    FixtureSortsMiddleBack();
    assert SortByScore(e[4..]) == [pp, gd, sa, og, mc, ti, tm] by {
      assert e[4..][1..] == e[5..];
      assert Insert(sa, [og, mc, ti, tm]) == [sa, og, mc, ti, tm];
      assert Insert(sa, [gd, og, mc, ti, tm]) == [gd] + Insert(sa, [og, mc, ti, tm]);
      assert Insert(sa, [pp, gd, og, mc, ti, tm]) == [pp] + Insert(sa, [gd, og, mc, ti, tm]);
    }
    assert SortByScore(e[3..]) == [fl, pp, gd, sa, og, mc, ti, tm] by {
      assert e[3..][1..] == e[4..];
      assert Insert(fl, [pp, gd, sa, og, mc, ti, tm]) == [fl, pp, gd, sa, og, mc, ti, tm];
    }
  }

  /** Inserting Emotional Control. */
  lemma FixtureSortsThird()
    ensures var e := FixtureEntries;
      var ri, wm, ec, fl := e[0], e[1], e[2], e[3];
      var sa, ti, pp, og := e[4], e[5], e[6], e[7];
      var tm, gd, mc := e[8], e[9], e[10];
      SortByScore(e[2..]) == [fl, pp, gd, sa, og, mc, ec, ti, tm]
  {
    var e := FixtureEntries;
    var ri, wm, ec, fl := e[0], e[1], e[2], e[3];
    var sa, ti, pp, og := e[4], e[5], e[6], e[7];
    var tm, gd, mc := e[8], e[9], e[10];
    FixtureSortsMiddle();
    assert e[2..][1..] == e[3..];
    assert Insert(ec, [ti, tm]) == [ec, ti, tm];
    assert Insert(ec, [mc, ti, tm]) == [mc] + Insert(ec, [ti, tm]);
    assert Insert(ec, [og, mc, ti, tm]) == [og] + Insert(ec, [mc, ti, tm]);
    assert Insert(ec, [sa, og, mc, ti, tm]) == [sa] + Insert(ec, [og, mc, ti, tm]);
    assert Insert(ec, [gd, sa, og, mc, ti, tm]) == [gd] + Insert(ec, [sa, og, mc, ti, tm]);
    assert Insert(ec, [pp, gd, sa, og, mc, ti, tm]) == [pp] + Insert(ec, [gd, sa, og, mc, ti, tm]);
    assert Insert(ec, [fl, pp, gd, sa, og, mc, ti, tm]) == [fl] + Insert(ec, [pp, gd, sa, og, mc, ti, tm]);
  }

  /** Inserting Working Memory. */
  lemma FixtureSortsSecond()
    ensures var e := FixtureEntries;
      var ri, wm, ec, fl := e[0], e[1], e[2], e[3];
      var sa, ti, pp, og := e[4], e[5], e[6], e[7];
      var tm, gd, mc := e[8], e[9], e[10];
      SortByScore(e[1..]) == [fl, pp, gd, wm, sa, og, mc, ec, ti, tm]
  {
    var e := FixtureEntries;
    var ri, wm, ec, fl := e[0], e[1], e[2], e[3];
    var sa, ti, pp, og := e[4], e[5], e[6], e[7];
    var tm, gd, mc := e[8], e[9], e[10];
    FixtureSortsThird();
    assert e[1..][1..] == e[2..];
    assert Insert(wm, [sa, og, mc, ec, ti, tm]) == [wm, sa, og, mc, ec, ti, tm];
    assert Insert(wm, [gd, sa, og, mc, ec, ti, tm]) == [gd] + Insert(wm, [sa, og, mc, ec, ti, tm]);
    assert Insert(wm, [pp, gd, sa, og, mc, ec, ti, tm]) == [pp] + Insert(wm, [gd, sa, og, mc, ec, ti, tm]);
    assert Insert(wm, [fl, pp, gd, sa, og, mc, ec, ti, tm]) == [fl] + Insert(wm, [pp, gd, sa, og, mc, ec, ti, tm]);
  }

  /** The last insertion: Response Inhibition goes first. */
  lemma FixtureSortsFront()
    ensures var e := FixtureEntries;
      var ri, wm, ec, fl := e[0], e[1], e[2], e[3];
      var sa, ti, pp, og := e[4], e[5], e[6], e[7];
      var tm, gd, mc := e[8], e[9], e[10];
      SortByScore(e[0..]) == [ri, fl, pp, gd, wm, sa, og, mc, ec, ti, tm]
  {
    var e := FixtureEntries;
    var ri, wm, ec, fl := e[0], e[1], e[2], e[3];
    var sa, ti, pp, og := e[4], e[5], e[6], e[7];
    var tm, gd, mc := e[8], e[9], e[10];
    FixtureSortsSecond();
    assert e[0..][1..] == e[1..];
    assert Insert(ri, [fl, pp, gd, wm, sa, og, mc, ec, ti, tm]) == [ri, fl, pp, gd, wm, sa, og, mc, ec, ti, tm];
  }

  lemma FixtureSorts()
    ensures SortByScore(FixtureEntries) == FixtureSorted
  {
    FixtureSortsFront();
    assert FixtureEntries[0..] == FixtureEntries;
  }

  /** The first three and the last three skills of the sorted sample. */
  lemma FixtureEnds()
    ensures SkillsOf(First3(FixtureSorted)) == [ResponseInhibition, Flexibility, PlanningPrioritizing]
    ensures SkillsOf(Last3(FixtureSorted)) == [EmotionalControl, TaskInitiation, TimeManagement]
  {
    assert First3(FixtureSorted) == FixtureSorted[..3];
    assert Last3(FixtureSorted) == FixtureSorted[8..];
  }

  /** On the sample scores the tie-break by declaration order decides:
      strengths are Response Inhibition, Flexibility, Planning/Prioritizing and
      weaknesses Emotional Control, Task Initiation, Time Management. */
  lemma FixtureAnalysis(scores: CategoryScores)
    requires IsFixture(scores)
    ensures AnalyzeResults(scores).strengths == [ResponseInhibition, Flexibility, PlanningPrioritizing]
    ensures AnalyzeResults(scores).weaknesses == [EmotionalControl, TaskInitiation, TimeManagement]
  {
    FixtureEntriesAre(scores);
    FixtureSorts();
    FixtureEnds();
    assert SortByScore(Entries(scores)) == FixtureSorted;
  }
}
