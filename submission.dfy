/** The pure parts of the web handlers: validation of a submitted assessment,
    the 33 answers bound into the stored row, the relabelling of the analysis
    for the report and the JSON answer, the results page's reading of stored
    data, and the e-mail log row. */
module Submission {
  import opened JsValues
  import opened Questionnaire
  import opened Analysis
  import EmailService

  // ---------------------------------------------------------------------------
  // Validation
  // ---------------------------------------------------------------------------

  datatype StudentInfo = StudentInfo(
    name: Option<string>, email: Option<string>, gradeLevel: Option<string>, school: Option<string>)

  /** The request body; either part may be missing. */
  datatype SubmitBody = SubmitBody(studentInfo: Option<StudentInfo>, responses: Option<Responses>)

  /** The handler's verdict on a body: go ahead, answer 400, or fail with 500
      (reading `name` of a missing `studentInfo` throws, and the handler's
      catch turns that into 500). */
  datatype Verdict = Accepted(info: StudentInfo, responses: Responses) | BadRequest | ServerError

  function ValidateSubmission(body: SubmitBody): (v: Verdict)
    ensures v.ServerError? <==> body.studentInfo.None?
    ensures v.BadRequest? <==>
      body.studentInfo.Some? &&
      (!Truthy(body.studentInfo.value.name) || body.responses.None? || |body.responses.value| != QuestionCount)
    ensures v.Accepted? ==>
      v.info == body.studentInfo.value && Truthy(v.info.name) &&
      body.responses == Some(v.responses) && |v.responses| == QuestionCount
  {
    match body.studentInfo
    case None => ServerError
    case Some(info) =>
      if !Truthy(info.name) || body.responses.None? || |body.responses.value| != QuestionCount then BadRequest
      else Accepted(info, body.responses.value)
  }

  /** The HTTP status of a verdict (200 when the handler goes on). */
  function StatusOf(v: Verdict): int {
    match v
    case Accepted(_, _) => 200
    case BadRequest => 400
    case ServerError => 500
  }

  /** `n` answers, all equal to `v`, under the consecutive ids lo, lo+1, ... */
  function UniformAnswers(lo: int, n: nat, v: int): (r: Responses)
    ensures |r| == n
    ensures forall k :: k in r <==> lo <= k < lo + n
    ensures forall k :: k in r ==> r[k] == v
  {
    if n == 0 then map[] else UniformAnswers(lo, n - 1, v)[lo + n - 1 := v]
  }

  /** Validation counts keys only: a body answering every question with 8,
      outside the 1..7 scale, is accepted, and its skill scores are 24, above
      the documented maximum of 21. */
  lemma ValidationIgnoresAnswerRange()
    ensures var r := UniformAnswers(1, 33, 8);
      ValidateSubmission(SubmitBody(Some(StudentInfo(Some("A"), None, None, None)), Some(r))).Accepted? &&
      forall s: Skill :: CalculateCategoryScores(r)[s] == 24
  {
    var r := UniformAnswers(1, 33, 8);
    forall s: Skill ensures CalculateCategoryScores(r)[s] == 24 {
      ScoreOf(r, s);
    }
  }

  /** Nor does it check which keys are given: 33 answers under ids 101..133
      are accepted, and every skill then scores 0. */
  lemma ValidationIgnoresKeyRange()
    ensures var r := UniformAnswers(101, 33, 5);
      ValidateSubmission(SubmitBody(Some(StudentInfo(Some("A"), None, None, None)), Some(r))).Accepted? &&
      forall s: Skill :: CalculateCategoryScores(r)[s] == 0
  {
    var r := UniformAnswers(101, 33, 5);
    forall s: Skill ensures CalculateCategoryScores(r)[s] == 0 {
      ScoreOf(r, s);
    }
  }

  // ---------------------------------------------------------------------------
  // The stored row
  // ---------------------------------------------------------------------------

  /** The 33 answer columns of the stored assessment, in question order. */
  function StoredResponses(r: Responses): (row: seq<int>)
    ensures |row| == QuestionCount
  {
    seq(QuestionCount, i => Answer(r, i + 1))
  }

  /** The stored answers, read three at a time, give back the stored skill
      scores: chunk j of the answer columns sums to the score of skill j. */
  lemma StoredResponsesChunk(r: Responses, j: nat)
    requires j < SkillCount
    ensures var row := StoredResponses(r);
      row[3 * j] + row[3 * j + 1] + row[3 * j + 2] == CalculateCategoryScores(r)[AllSkills[j]]
  {
    ScoreOf(r, AllSkills[j]);
    AllSkillsIndexed(j);
  }

  /** The stored answer for question id k (1..33) is the answer the scores use. */
  lemma StoredResponseAt(r: Responses, k: int)
    requires 1 <= k <= QuestionCount
    ensures StoredResponses(r)[k - 1] == Answer(r, k)
    ensures Answer(r, k) == 0 <== k !in r
  {
  }

  /** The eleven skill-score columns of the stored assessment, in
      declaration order. */
  function StoredCategoryScores(scores: CategoryScores): (row: seq<int>)
    requires Complete(scores)
    ensures |row| == SkillCount
  {
    seq(SkillCount, i requires 0 <= i < SkillCount => scores[AllSkills[i]])
  }

  // ---------------------------------------------------------------------------
  // Relabelling
  // ---------------------------------------------------------------------------

  /** `skills.map(skill => executiveSkillLabels[skill])`. */
  function LabelSkills(skills: seq<Skill>): (labels: seq<string>)
    ensures |labels| == |skills|
  {
    if skills == [] then [] else [Label(skills[0])] + LabelSkills(skills[1..])
  }

  /** `sortedScores.map(item => ({skill: label, score}))`. */
  function LabelEntries(es: seq<Entry>): (items: seq<EmailService.ScoreItem>)
    ensures |items| == |es|
  {
    if es == [] then []
    else [EmailService.ScoreItem(Label(es[0].skill), es[0].score)] + LabelEntries(es[1..])
  }

  /** Relabelling keeps order and can be undone label by label. */
  lemma {:induction false} LabelSkillsInvertible(skills: seq<Skill>)
    ensures forall i :: 0 <= i < |skills| ==> SkillOfLabel(LabelSkills(skills)[i]) == Some(skills[i])
  {
    if skills != [] {
      LabelSkillsInvertible(skills[1..]);
      LabelRoundTrip(skills[0], "");
      forall i | 0 <= i < |skills|
        ensures SkillOfLabel(LabelSkills(skills)[i]) == Some(skills[i])
      {
        if i > 0 {
          assert LabelSkills(skills)[i] == LabelSkills(skills[1..])[i - 1];
        }
      }
    }
  }

  /** Relabelled score entries keep their order and their scores, and each
      label names the entry's skill. */
  lemma {:induction false} LabelEntriesInvertible(es: seq<Entry>)
    ensures forall i :: 0 <= i < |es| ==>
      LabelEntries(es)[i].score == es[i].score &&
      SkillOfLabel(LabelEntries(es)[i].skill) == Some(es[i].skill)
  {
    if es != [] {
      LabelEntriesInvertible(es[1..]);
      LabelRoundTrip(es[0].skill, "");
      forall i | 0 <= i < |es|
        ensures LabelEntries(es)[i].score == es[i].score &&
                SkillOfLabel(LabelEntries(es)[i].skill) == Some(es[i].skill)
      {
        if i > 0 {
          assert LabelEntries(es)[i] == LabelEntries(es[1..])[i - 1];
        }
      }
    }
  }

  /** Relabelling commutes with taking the skills of the score entries. */
  lemma {:induction false} LabelSkillsOfEntries(es: seq<Entry>)
    ensures LabelSkills(SkillsOf(es)) == seq(|es|, i requires 0 <= i < |es| => LabelEntries(es)[i].skill)
  {
    if es != [] {
      LabelSkillsOfEntries(es[1..]);
      assert SkillsOf(es)[1..] == SkillsOf(es[1..]);
    }
  }

  /** The relabelled analysis: the relabelled score list is still ascending
      by score, and the relabelled strengths and weaknesses are the labels
      of its first three and last three entries. */
  lemma RelabelledAnalysis(scores: CategoryScores)
    requires Complete(scores)
    ensures var a := AnalyzeResults(scores);
      var items := LabelEntries(a.sortedScores);
      |items| == SkillCount &&
      (forall i, j :: 0 <= i < j < |items| ==> items[i].score <= items[j].score) &&
      LabelSkills(a.strengths) == [items[0].skill, items[1].skill, items[2].skill] &&
      LabelSkills(a.weaknesses) == [items[8].skill, items[9].skill, items[10].skill]
  {
    var a := AnalyzeResults(scores);
    var sorted := a.sortedScores;
    SortedScoresSpec(scores);
    StrengthsAndWeaknesses(scores);
    LabelEntriesInvertible(sorted);
    var items := LabelEntries(sorted);
    forall i, j | 0 <= i < j < |items| ensures items[i].score <= items[j].score {
      assert sorted[i].score <= sorted[j].score;
    }
    LabelsAt(a.strengths);
    LabelsAt(a.weaknesses);
    LabelEntriesAt(sorted);
  }

  lemma {:induction false} LabelsAt(skills: seq<Skill>)
    ensures forall i :: 0 <= i < |skills| ==> LabelSkills(skills)[i] == Label(skills[i])
  {
    if skills != [] {
      LabelsAt(skills[1..]);
      forall i | 0 < i < |skills| ensures LabelSkills(skills)[i] == Label(skills[i]) {
        assert LabelSkills(skills)[i] == LabelSkills(skills[1..])[i - 1];
      }
    }
  }

  lemma {:induction false} LabelEntriesAt(es: seq<Entry>)
    ensures forall i :: 0 <= i < |es| ==> LabelEntries(es)[i] == EmailService.ScoreItem(Label(es[i].skill), es[i].score)
  {
    if es != [] {
      LabelEntriesAt(es[1..]);
      forall i | 0 < i < |es| ensures LabelEntries(es)[i] == EmailService.ScoreItem(Label(es[i].skill), es[i].score) {
        assert LabelEntries(es)[i] == LabelEntries(es[1..])[i - 1];
      }
    }
  }

  /** `Object.fromEntries` of the (label, score) pairs of `skills`, in order;
      a later pair overrides an earlier one with the same label. */
  function FromEntries(scores: CategoryScores, skills: seq<Skill>): map<string, int>
    requires forall s :: s in skills ==> s in scores
  {
    if skills == [] then map[]
    else
      var last := skills[|skills| - 1];
      FromEntries(scores, skills[..|skills| - 1])[Label(last) := scores[last]]
  }

  /** The score record re-keyed by label, as the report receives it; the
      record's entries come in declaration order. */
  function LabelKeyed(scores: CategoryScores): map<string, int>
    requires Complete(scores)
  {
    FromEntries(scores, AllSkills)
  }

  /** Re-keying distinct skills by label keeps one entry per skill, under its
      label and with its value, and adds nothing else. */
  lemma {:induction false} FromEntriesLookup(scores: CategoryScores, skills: seq<Skill>)
    requires forall s :: s in skills ==> s in scores
    requires forall i, j :: 0 <= i < j < |skills| ==> skills[i] != skills[j]
    ensures forall s :: s in skills ==> Label(s) in FromEntries(scores, skills) &&
                                        FromEntries(scores, skills)[Label(s)] == scores[s]
    ensures forall l :: l in FromEntries(scores, skills) ==> exists s :: s in skills && Label(s) == l
  {
    if skills != [] {
      var init := skills[..|skills| - 1];
      var last := skills[|skills| - 1];
      FromEntriesLookup(scores, init);
      assert skills == init + [last];
      forall s | s in init ensures Label(s) != Label(last) {
        if Label(s) == Label(last) {
          LabelInjective(s, last);
        }
      }
    }
  }

  lemma AllSkillsDistinct()
    ensures forall i, j :: 0 <= i < j < |AllSkills| ==> AllSkills[i] != AllSkills[j]
  {
    forall i, j | 0 <= i < j < |AllSkills| ensures AllSkills[i] != AllSkills[j] {
      AllSkillsIndexed(i);
      AllSkillsIndexed(j);
    }
  }

  /** The label-keyed record has one entry per skill, under that skill's
      label and with the same value, and nothing else. */
  lemma LabelKeyedEntries(scores: CategoryScores)
    requires Complete(scores)
    ensures forall s: Skill :: Label(s) in LabelKeyed(scores) && LabelKeyed(scores)[Label(s)] == scores[s]
    ensures forall l :: l in LabelKeyed(scores) ==> SkillOfLabel(l).Some?
  {
    AllSkillsDistinct();
    FromEntriesLookup(scores, AllSkills);
    forall s: Skill ensures s in AllSkills {
      SkillCases(s);
    }
    forall l | l in LabelKeyed(scores) ensures SkillOfLabel(l).Some? {
      var s :| s in AllSkills && Label(s) == l;
      LabelRoundTrip(s, l);
    }
  }

  // ---------------------------------------------------------------------------
  // The e-mail data and log
  // ---------------------------------------------------------------------------

  /** The data handed to the mail service after a valid submission. */
  function BuildEmailData(info: StudentInfo, scores: CategoryScores, completedAt: string): EmailService.EmailData
    requires Truthy(info.name)
    requires Complete(scores)
  {
    var a := AnalyzeResults(scores);
    EmailService.EmailData(
      info.name.value, info.email, info.gradeLevel, LabelKeyed(scores),
      LabelSkills(a.strengths), LabelSkills(a.weaknesses), LabelEntries(a.sortedScores), completedAt)
  }

  /** The report of a submission lists the labels of the three strongest
      skills, then of the three weakest, then one row per skill in ranking
      order. */
  lemma SubmissionReport(info: StudentInfo, scores: CategoryScores, completedAt: string)
    requires Truthy(info.name)
    requires Complete(scores)
    ensures var a := AnalyzeResults(scores);
      var report := EmailService.GenerateEmailHTML(BuildEmailData(info, scores, completedAt));
      EmailService.StrengthsListed(report) == LabelSkills(a.strengths) &&
      EmailService.WeaknessesListed(report) == LabelSkills(a.weaknesses) &&
      |a.sortedScores| == SkillCount &&
      |EmailService.RowsListed(report)| == SkillCount &&
      forall i :: 0 <= i < SkillCount ==>
        var e := a.sortedScores[i];
        EmailService.RowsListed(report)[i] ==
          EmailService.ScoreRow(Label(e.skill), EmailService.ScoreShown(e.score),
                                EmailService.BandText(EmailService.BandOf(e.score)))
  {
    var a := AnalyzeResults(scores);
    var data := BuildEmailData(info, scores, completedAt);
    assert data.strengths == LabelSkills(a.strengths);
    assert data.weaknesses == LabelSkills(a.weaknesses);
    assert data.sortedScores == LabelEntries(a.sortedScores);
    SortedScoresSpec(scores);
    EmailService.ReportLists(data);
    LabelEntriesAt(a.sortedScores);
  }

  const LogRecipient: string := "mjackson@bcssaints.org"

  datatype LogRow = LogRow(
    assessmentId: int, recipient: string, subject: string, status: string, errorMessage: Option<string>)

  /** The e-mail log row, written only when the database is bound and a
      non-zero assessment id was obtained. */
  function EmailLog(dbBound: bool, assessmentId: int, studentName: string, result: EmailService.SendResult)
    : (row: Option<LogRow>)
    ensures row.Some? <==> dbBound && assessmentId != 0
    ensures row.Some? ==>
      row.value.recipient == LogRecipient &&
      row.value.assessmentId == assessmentId &&
      row.value.subject == EmailService.Subject(studentName) &&
      (row.value.status == "success" <==> result.success) &&
      (row.value.errorMessage.Some? <==> Truthy(result.error))
  {
    if dbBound && assessmentId != 0 then
      Some(LogRow(assessmentId, LogRecipient, EmailService.Subject(studentName),
                  if result.success then "success" else "error",
                  if Truthy(result.error) then result.error else None))
    else None
  }

  /** The log's status agrees with what the mail service reported, and a
      logged error text is exactly the service's error. */
  lemma EmailLogFollowsSend(data: EmailService.EmailData, apiKey: Option<string>,
                            outcome: EmailService.SendOutcome, assessmentId: int)
    requires assessmentId != 0
    ensures var result := EmailService.SendAssessmentReport(data, apiKey, outcome).0;
      var row := EmailLog(true, assessmentId, data.studentName, result).value;
      (row.status == "success" <==> result.success) &&
      (row.status == "error" ==> row.errorMessage == result.error) &&
      (!Truthy(apiKey) ==> row.errorMessage == Some(EmailService.NotConfiguredError))
  {
  }

  // ---------------------------------------------------------------------------
  // The results page
  // ---------------------------------------------------------------------------

  /** `executiveSkillLabels[key] || key` on a stored strength or weakness. */
  function DisplayStored(key: string): (shown: string)
  {
    match SkillOfKey(key)
    case Some(s) => Label(s)
    case None => key
  }

  /** A stored skill key is shown as its label, and any other text as itself. */
  lemma DisplayStoredSpec(s: Skill, key: string)
    ensures DisplayStored(Key(s)) == Label(s)
    ensures (forall t: Skill :: Key(t) != key) ==> DisplayStored(key) == key
  {
    KeyRoundTrip(s, key);
  }

  /** The stored lists hold skill keys; showing them gives the same labels
      the report carried. */
  lemma {:induction false} DisplayStoredList(skills: seq<Skill>)
    ensures seq(|skills|, i requires 0 <= i < |skills| => DisplayStored(Key(skills[i]))) == LabelSkills(skills)
  {
    if skills != [] {
      DisplayStoredList(skills[1..]);
      KeyRoundTrip(skills[0], "");
    }
  }

  /** The results page's score record: each label mapped to its stored
      column, in declaration order. */
  function ResultsCategoryScores(stored: seq<int>): map<string, int>
    requires |stored| == SkillCount
  {
    map[
      "Response Inhibition" := stored[0],
      "Working Memory" := stored[1],
      "Emotional Control" := stored[2],
      "Flexibility" := stored[3],
      "Sustained Attention" := stored[4],
      "Task Initiation" := stored[5],
      "Planning/Prioritizing" := stored[6],
      "Organization" := stored[7],
      "Time Management" := stored[8],
      "Goal-Directed Persistence" := stored[9],
      "Metacognition" := stored[10]
    ]
  }

  /** The page's record holds each skill's label with that skill's stored column. */
  lemma ResultsScoreOf(stored: seq<int>, s: Skill)
    requires |stored| == SkillCount
    ensures Label(s) in ResultsCategoryScores(stored)
    ensures ResultsCategoryScores(stored)[Label(s)] == stored[SkillIndex(s)]
  {
    match s
    case ResponseInhibition =>
    case WorkingMemory =>
    case EmotionalControl =>
    case Flexibility =>
    case SustainedAttention =>
    case TaskInitiation =>
    case PlanningPrioritizing =>
    case Organization =>
    case TimeManagement =>
    case GoalDirectedPersistence =>
    case Metacognition =>
  }

  /** Reading the stored skill-score columns back under labels gives, for
      every skill, the value the report was sent under the same label. */
  lemma ResultsScoresRoundTrip(scores: CategoryScores, s: Skill)
    requires Complete(scores)
    ensures Label(s) in ResultsCategoryScores(StoredCategoryScores(scores)) && Label(s) in LabelKeyed(scores)
    ensures ResultsCategoryScores(StoredCategoryScores(scores))[Label(s)] == LabelKeyed(scores)[Label(s)]
  {
    LabelKeyedEntries(scores);
    ResultsScoreOf(StoredCategoryScores(scores), s);
  }

  /** The interpretation line under each score on the results page. */
  function PageInterpretation(score: int): string {
    if score <= 7 then "Strong area" else if score <= 14 then "Moderate" else "May need support"
  }

  /** The results page uses the report's thresholds; its wording differs
      from the report's only for the middle band. */
  lemma PageAgreesWithReport(score: int)
    ensures PageInterpretation(score) == EmailService.BandText(EmailService.BandOf(score))
            <==> EmailService.BandOf(score) != EmailService.Moderate
    ensures EmailService.BandOf(score) == EmailService.Moderate ==> PageInterpretation(score) == "Moderate"
  {
  }
}
