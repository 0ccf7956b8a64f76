/** The report e-mail: the three-way interpretation band of a category score,
    the structure of the HTML report and the outcome of sending it through
    the mail API. The report is modelled as the sequence of its variable
    parts (fragments); the fixed markup and styling around them is not. */
module EmailService {
  import opened JsValues

  /** One entry of the ranked score list, keyed by the skill's display label. */
  datatype ScoreItem = ScoreItem(skill: string, score: int)

  /** What the submit handler hands to the mail service. */
  datatype EmailData = EmailData(
    studentName: string,
    studentEmail: Option<string>,
    gradeLevel: Option<string>,
    categoryScores: map<string, int>,
    strengths: seq<string>,
    weaknesses: seq<string>,
    sortedScores: seq<ScoreItem>,
    completedAt: string)

  // ---------------------------------------------------------------------------
  // Interpretation bands
  // ---------------------------------------------------------------------------

  /** Lower scores mean better functioning. */
  datatype Band = StrongArea | Moderate | MayNeedSupport

  /** The threshold rule of the score table: at most 7, at most 14, above. */
  function BandOf(score: int): (b: Band)
  {
    if score <= 7 then StrongArea
    else if score <= 14 then Moderate
    else MayNeedSupport
  }

  /** The interpretation text the e-mail shows for a band. */
  function BandText(b: Band): string {
    match b
    case StrongArea => "Strong area"
    case Moderate => "Moderate functioning"
    case MayNeedSupport => "May need support"
  }

  /** The inclusive score range the report's legend documents for a band. */
  function DocumentedRange(b: Band): (range: (int, int))
    ensures 3 <= range.0 <= range.1 <= 21
  {
    match b
    case StrongArea => (3, 7)
    case Moderate => (8, 14)
    case MayNeedSupport => (15, 21)
  }

  /** Severity order of the bands. */
  function Rank(b: Band): (n: nat)
    ensures n < 3
  {
    match b
    case StrongArea => 0
    case Moderate => 1
    case MayNeedSupport => 2
  }

  /** Every integer falls in exactly one band, and the band is determined by
      the two thresholds. */
  lemma BandsPartition(score: int)
    ensures BandOf(score) == StrongArea <==> score <= 7
    ensures BandOf(score) == Moderate <==> 7 < score <= 14
    ensures BandOf(score) == MayNeedSupport <==> 14 < score
  {
  }

  /** On the valid score range 3..21 the threshold rule agrees with the
      documented ranges, in both directions. */
  lemma BandsMatchLegend(score: int, b: Band)
    requires 3 <= score <= 21
    ensures BandOf(score) == b <==> DocumentedRange(b).0 <= score <= DocumentedRange(b).1
  {
  }

  /** A higher score never gets a milder band. */
  lemma BandMonotone(lo: int, hi: int)
    requires lo <= hi
    ensures Rank(BandOf(lo)) <= Rank(BandOf(hi))
  {
  }

  /** The three interpretation texts are distinct, so the text identifies the band. */
  lemma BandTextInjective(b: Band, c: Band)
    requires BandText(b) == BandText(c)
    ensures b == c
  {
  }

  // ---------------------------------------------------------------------------
  // Report structure
  // ---------------------------------------------------------------------------

  /** The variable parts of the report, in document order. */
  datatype Fragment =
    | NameLine(name: string)
    | GradeLine(grade: string)
    | EmailLine(email: string)
    | CompletedLine(completedAt: string)
    | StrengthItem(strength: string)
    | WeaknessItem(weakness: string)
    | ScoreRow(skill: string, shown: string, interpretation: string)

  /** The score cell text: the score, a slash and the maximum 21. */
  function ScoreShown(score: int): string {
    IntString(score) + "/21"
  }

  function StrengthItems(strengths: seq<string>): (fs: seq<Fragment>)
    ensures |fs| == |strengths|
  {
    if strengths == [] then [] else [StrengthItem(strengths[0])] + StrengthItems(strengths[1..])
  }

  function WeaknessItems(weaknesses: seq<string>): (fs: seq<Fragment>)
    ensures |fs| == |weaknesses|
  {
    if weaknesses == [] then [] else [WeaknessItem(weaknesses[0])] + WeaknessItems(weaknesses[1..])
  }

  function ScoreRows(items: seq<ScoreItem>): (fs: seq<Fragment>)
    ensures |fs| == |items|
  {
    if items == [] then []
    else
      var it := items[0];
      [ScoreRow(it.skill, ScoreShown(it.score), BandText(BandOf(it.score)))] + ScoreRows(items[1..])
  }

  /** The report: name, the optional grade and e-mail lines, the completion
      line, one item per strength, one per weakness, one table row per
      ranked score. */
  function GenerateEmailHTML(data: EmailData): seq<Fragment> {
    [NameLine(data.studentName)]
    + (if Truthy(data.gradeLevel) then [GradeLine(data.gradeLevel.value)] else [])
    + (if Truthy(data.studentEmail) then [EmailLine(data.studentEmail.value)] else [])
    + [CompletedLine(data.completedAt)]
    + StrengthItems(data.strengths)
    + WeaknessItems(data.weaknesses)
    + ScoreRows(data.sortedScores)
  }

  // Reading a report back: the strengths, weaknesses and rows it lists, in order.

  function StrengthsListed(fs: seq<Fragment>): seq<string> {
    if fs == [] then []
    else (if fs[0].StrengthItem? then [fs[0].strength] else []) + StrengthsListed(fs[1..])
  }

  function WeaknessesListed(fs: seq<Fragment>): seq<string> {
    if fs == [] then []
    else (if fs[0].WeaknessItem? then [fs[0].weakness] else []) + WeaknessesListed(fs[1..])
  }

  function RowsListed(fs: seq<Fragment>): seq<Fragment> {
    if fs == [] then []
    else (if fs[0].ScoreRow? then [fs[0]] else []) + RowsListed(fs[1..])
  }

  lemma {:induction false} StrengthsConcat(a: seq<Fragment>, b: seq<Fragment>)
    ensures StrengthsListed(a + b) == StrengthsListed(a) + StrengthsListed(b)
  {
    if a == [] {
      assert a + b == b;
    } else {
      assert (a + b)[0] == a[0];
      assert (a + b)[1..] == a[1..] + b;
      StrengthsConcat(a[1..], b);
    }
  }

  lemma {:induction false} WeaknessesConcat(a: seq<Fragment>, b: seq<Fragment>)
    ensures WeaknessesListed(a + b) == WeaknessesListed(a) + WeaknessesListed(b)
  {
    if a == [] {
      assert a + b == b;
    } else {
      assert (a + b)[0] == a[0];
      assert (a + b)[1..] == a[1..] + b;
      WeaknessesConcat(a[1..], b);
    }
  }

  lemma {:induction false} RowsConcat(a: seq<Fragment>, b: seq<Fragment>)
    ensures RowsListed(a + b) == RowsListed(a) + RowsListed(b)
  {
    if a == [] {
      assert a + b == b;
    } else {
      assert (a + b)[0] == a[0];
      assert (a + b)[1..] == a[1..] + b;
      RowsConcat(a[1..], b);
    }
  }

  /** Reading a concatenation back reads each part in turn. */
  lemma ListedConcat(a: seq<Fragment>, b: seq<Fragment>)
    ensures StrengthsListed(a + b) == StrengthsListed(a) + StrengthsListed(b)
    ensures WeaknessesListed(a + b) == WeaknessesListed(a) + WeaknessesListed(b)
    ensures RowsListed(a + b) == RowsListed(a) + RowsListed(b)
  {
    StrengthsConcat(a, b);
    WeaknessesConcat(a, b);
    RowsConcat(a, b);
  }

  lemma {:induction false} StrengthItemsListed(xs: seq<string>)
    ensures StrengthsListed(StrengthItems(xs)) == xs
    ensures WeaknessesListed(StrengthItems(xs)) == []
    ensures RowsListed(StrengthItems(xs)) == []
  {
    if xs != [] {
      ListedConcat([StrengthItem(xs[0])], StrengthItems(xs[1..]));
      StrengthItemsListed(xs[1..]);
    }
  }

  lemma {:induction false} WeaknessItemsListed(xs: seq<string>)
    ensures StrengthsListed(WeaknessItems(xs)) == []
    ensures WeaknessesListed(WeaknessItems(xs)) == xs
    ensures RowsListed(WeaknessItems(xs)) == []
  {
    if xs != [] {
      ListedConcat([WeaknessItem(xs[0])], WeaknessItems(xs[1..]));
      WeaknessItemsListed(xs[1..]);
    }
  }

  lemma {:induction false} ScoreRowsListed(items: seq<ScoreItem>)
    ensures StrengthsListed(ScoreRows(items)) == []
    ensures WeaknessesListed(ScoreRows(items)) == []
    ensures RowsListed(ScoreRows(items)) == ScoreRows(items)
  {
    if items != [] {
      var it := items[0];
      ListedConcat([ScoreRow(it.skill, ScoreShown(it.score), BandText(BandOf(it.score)))], ScoreRows(items[1..]));
      ScoreRowsListed(items[1..]);
    }
  }

  /** Row i of the score table shows the i-th ranked skill, its score as
      "score/21" and the band the score falls in. */
  lemma {:induction false} ScoreRowAt(items: seq<ScoreItem>, i: int)
    requires 0 <= i < |items|
    ensures ScoreRows(items)[i] == ScoreRow(items[i].skill, ScoreShown(items[i].score), BandText(BandOf(items[i].score)))
  {
    if i > 0 {
      ScoreRowAt(items[1..], i - 1);
    }
  }

  /** The score cell can be read back: it is the score's decimal text followed by "/21". */
  lemma ScoreShownReadable(score: int)
    ensures var shown := ScoreShown(score);
      |shown| > 3 && shown[|shown| - 3..] == "/21" && ParseInt(shown[..|shown| - 3]) == Some(score)
  {
    var shown := ScoreShown(score);
    assert shown[..|shown| - 3] == IntString(score);
    IntStringRoundTrip(score);
  }

  /** The header part of the report (before the lists). */
  function InfoLines(data: EmailData): seq<Fragment> {
    [NameLine(data.studentName)]
    + (if Truthy(data.gradeLevel) then [GradeLine(data.gradeLevel.value)] else [])
    + (if Truthy(data.studentEmail) then [EmailLine(data.studentEmail.value)] else [])
    + [CompletedLine(data.completedAt)]
  }

  /** The report lists exactly the given strengths and weaknesses, one item
      each and in input order, and exactly one table row per ranked score,
      in order, each showing that entry's skill, score and band. */
  lemma ReportLists(data: EmailData)
    ensures StrengthsListed(GenerateEmailHTML(data)) == data.strengths
    ensures WeaknessesListed(GenerateEmailHTML(data)) == data.weaknesses
    ensures var rows := RowsListed(GenerateEmailHTML(data));
      |rows| == |data.sortedScores| &&
      forall i :: 0 <= i < |rows| ==>
        rows[i] == ScoreRow(data.sortedScores[i].skill, ScoreShown(data.sortedScores[i].score),
                            BandText(BandOf(data.sortedScores[i].score)))
  {
    var info := InfoLines(data);
    var s := StrengthItems(data.strengths);
    var w := WeaknessItems(data.weaknesses);
    var r := ScoreRows(data.sortedScores);
    assert GenerateEmailHTML(data) == info + s + w + r;
    assert StrengthsListed(info) == [] && WeaknessesListed(info) == [] && RowsListed(info) == [] by {
      InfoLinesListNothing(data);
    }
    ListedConcat(info, s);
    ListedConcat(info + s, w);
    ListedConcat(info + s + w, r);
    StrengthItemsListed(data.strengths);
    WeaknessItemsListed(data.weaknesses);
    ScoreRowsListed(data.sortedScores);
    forall i | 0 <= i < |data.sortedScores|
      ensures r[i] == ScoreRow(data.sortedScores[i].skill, ScoreShown(data.sortedScores[i].score),
                               BandText(BandOf(data.sortedScores[i].score)))
    {
      ScoreRowAt(data.sortedScores, i);
    }
  }

  lemma InfoLinesListNothing(data: EmailData)
    ensures StrengthsListed(InfoLines(data)) == []
    ensures WeaknessesListed(InfoLines(data)) == []
    ensures RowsListed(InfoLines(data)) == []
  {
    var g := if Truthy(data.gradeLevel) then [GradeLine(data.gradeLevel.value)] else [];
    var e := if Truthy(data.studentEmail) then [EmailLine(data.studentEmail.value)] else [];
    var n := [NameLine(data.studentName)];
    var c := [CompletedLine(data.completedAt)];
    ListedConcat(n, g);
    ListedConcat(n + g, e);
    ListedConcat(n + g + e, c);
  }

  /** The report is its information lines followed by the item lists and
      the table, which hold only items and rows. */
  lemma ReportSplit(data: EmailData)
    ensures var rest := StrengthItems(data.strengths) + WeaknessItems(data.weaknesses) + ScoreRows(data.sortedScores);
      GenerateEmailHTML(data) == InfoLines(data) + rest &&
      forall f :: f in rest ==> f.StrengthItem? || f.WeaknessItem? || f.ScoreRow?
  {
    NoInfoInLists(data);
  }

  /** The information lines: which grade and e-mail lines they hold. */
  lemma InfoLinesContent(data: EmailData)
    ensures forall f :: f in InfoLines(data) && f.GradeLine? ==>
      Truthy(data.gradeLevel) && f == GradeLine(data.gradeLevel.value)
    ensures forall f :: f in InfoLines(data) && f.EmailLine? ==>
      Truthy(data.studentEmail) && f == EmailLine(data.studentEmail.value)
    ensures Truthy(data.gradeLevel) ==> GradeLine(data.gradeLevel.value) in InfoLines(data)
    ensures Truthy(data.studentEmail) ==> EmailLine(data.studentEmail.value) in InfoLines(data)
    ensures NameLine(data.studentName) in InfoLines(data)
    ensures CompletedLine(data.completedAt) in InfoLines(data)
  {
  }

  /** The grade line appears exactly when the grade level is non-empty, and
      then shows it. */
  lemma GradeLineShown(data: EmailData)
    ensures (exists f :: f in GenerateEmailHTML(data) && f.GradeLine?) <==> Truthy(data.gradeLevel)
    ensures forall f :: f in GenerateEmailHTML(data) && f.GradeLine? ==> f.grade == data.gradeLevel.value
  {
    var report := GenerateEmailHTML(data);
    ReportSplit(data);
    InfoLinesContent(data);
    forall f | f in report && f.GradeLine?
      ensures Truthy(data.gradeLevel) && f.grade == data.gradeLevel.value
    {
      assert f in InfoLines(data);
    }
    if Truthy(data.gradeLevel) {
      assert GradeLine(data.gradeLevel.value) in report;
    }
  }

  /** The e-mail line appears exactly when the student e-mail is non-empty,
      and then shows it. */
  lemma EmailLineShown(data: EmailData)
    ensures (exists f :: f in GenerateEmailHTML(data) && f.EmailLine?) <==> Truthy(data.studentEmail)
    ensures forall f :: f in GenerateEmailHTML(data) && f.EmailLine? ==> f.email == data.studentEmail.value
  {
    var report := GenerateEmailHTML(data);
    ReportSplit(data);
    InfoLinesContent(data);
    forall f | f in report && f.EmailLine?
      ensures Truthy(data.studentEmail) && f.email == data.studentEmail.value
    {
      assert f in InfoLines(data);
    }
    if Truthy(data.studentEmail) {
      assert EmailLine(data.studentEmail.value) in report;
    }
  }

  /** The name and completion lines are always there. */
  lemma FixedLinesShown(data: EmailData)
    ensures NameLine(data.studentName) in GenerateEmailHTML(data)
    ensures CompletedLine(data.completedAt) in GenerateEmailHTML(data)
  {
    ReportSplit(data);
    InfoLinesContent(data);
  }

  /** The item lists and the table hold no grade or e-mail line. */
  lemma NoInfoInLists(data: EmailData)
    ensures forall f :: f in StrengthItems(data.strengths) + WeaknessItems(data.weaknesses) + ScoreRows(data.sortedScores) ==>
                         f.StrengthItem? || f.WeaknessItem? || f.ScoreRow?
  {
    OnlyStrengthItems(data.strengths);
    OnlyWeaknessItems(data.weaknesses);
    OnlyScoreRows(data.sortedScores);
  }

  lemma {:induction false} OnlyStrengthItems(xs: seq<string>)
    ensures forall f :: f in StrengthItems(xs) ==> f.StrengthItem?
  {
    if xs != [] {
      OnlyStrengthItems(xs[1..]);
    }
  }

  lemma {:induction false} OnlyWeaknessItems(xs: seq<string>)
    ensures forall f :: f in WeaknessItems(xs) ==> f.WeaknessItem?
  {
    if xs != [] {
      OnlyWeaknessItems(xs[1..]);
    }
  }

  lemma {:induction false} OnlyScoreRows(items: seq<ScoreItem>)
    ensures forall f :: f in ScoreRows(items) ==> f.ScoreRow?
  {
    if items != [] {
      OnlyScoreRows(items[1..]);
    }
  }

  // ---------------------------------------------------------------------------
  // Sending
  // ---------------------------------------------------------------------------

  const Sender: string := "Executive Skills Assessment <noreply@bcssaints.org>"
  const Recipients: seq<string> := ["mjackson@bcssaints.org", "forms@bcssaints.org"]
  const ReplyTo: string := "mjackson@bcssaints.org"
  const SubjectPrefix: string := "Executive Skills Assessment Results - "
  const NotConfiguredError: string := "Email service not configured. Please set RESEND_API_KEY environment variable."
  const SendFailedDefault: string := "Failed to send email"
  const ServiceErrorPrefix: string := "Email service error: "

  /** The request posted to the mail API. */
  datatype EmailRequest = EmailRequest(
    authorization: string, from: string, to: seq<string>, subject: string,
    html: seq<Fragment>, replyTo: string)

  /** How the mail API call went: accepted; answered with a non-OK status and
      a body whose `message` may be absent; or the call threw, with an
      `Error` message or some other thrown value. */
  datatype SendOutcome = Delivered | Rejected(message: Option<string>) | Thrown(errorMessage: Option<string>)

  datatype SendResult = SendResult(success: bool, error: Option<string>)

  /** The subject line for a student. */
  function Subject(studentName: string): (s: string)
    ensures |s| == |SubjectPrefix| + |studentName|
    ensures s[..|SubjectPrefix|] == SubjectPrefix && s[|SubjectPrefix|..] == studentName
  {
    SubjectPrefix + studentName
  }

  /** Sends the report. Without an API key nothing is sent (`None` request);
      otherwise the request that would be posted is returned together with
      the result the outcome of the call leads to. */
  function SendAssessmentReport(data: EmailData, apiKey: Option<string>, outcome: SendOutcome)
    : (r: (SendResult, Option<EmailRequest>))
    ensures !Truthy(apiKey) <==> r.1 == None
    ensures !Truthy(apiKey) ==> r.0 == SendResult(false, Some(NotConfiguredError))
    ensures Truthy(apiKey) ==>
      r.1.value.to == Recipients && r.1.value.from == Sender && r.1.value.replyTo == ReplyTo &&
      r.1.value.subject == Subject(data.studentName) && r.1.value.html == GenerateEmailHTML(data)
    ensures Truthy(apiKey) ==> (r.0.success <==> outcome.Delivered?)
    ensures r.0.success <==> r.0.error.None?
  {
    if !Truthy(apiKey) then
      (SendResult(false, Some(NotConfiguredError)), None)
    else
      var request := EmailRequest("Bearer " + apiKey.value, Sender, Recipients,
                                  Subject(data.studentName), GenerateEmailHTML(data), ReplyTo);
      var result :=
        match outcome
        case Delivered => SendResult(true, None)
        case Rejected(message) => SendResult(false, Some(StrOr(message, SendFailedDefault)))
        case Thrown(errorMessage) =>
          SendResult(false, Some(ServiceErrorPrefix +
            (if errorMessage.Some? then errorMessage.value else "Unknown error")));
      (result, Some(request))
  }

  /** A rejected send reports the API's message when it has a non-empty one,
      and the default text otherwise. */
  lemma RejectedMessage(data: EmailData, apiKey: Option<string>, message: Option<string>)
    requires Truthy(apiKey)
    ensures var r := SendAssessmentReport(data, apiKey, Rejected(message)).0;
      !r.success &&
      (Truthy(message) ==> r.error == message) &&
      (!Truthy(message) ==> r.error == Some(SendFailedDefault))
  {
  }
}
