# Executive Skills Assessment: scoring, ranking, report and sheet rows

The application gives a teenager a 33-item questionnaire. There are eleven
executive skills with three consecutive items each, and every answer is on
a 1–7 scale. The application:

- sums each skill's three answers;
- ranks the eleven skills with a stable ascending sort;
- names the three lowest-scoring skills as strengths and the three
  highest-scoring skills as weaknesses;
- e-mails a report;
- stores the result as one 54-cell spreadsheet row. This goes either
  directly through the Sheets API or through a webhook into an Apps Script
  web app.

This Dafny project models that logic.

| file | module | what it holds |
|---|---|---|
| `js_values.dfy` | `JsValues` | optional strings and JavaScript truthiness, `join`, decimal rendering and parsing |
| `questionnaire.dfy` | `Questionnaire` | the skills, their keys and labels, the question catalog, the scale, `calculateCategoryScores` |
| `analysis.dfy` | `Analysis` | `analyzeResults`: the stable sort (as insertion sort), strengths and weaknesses, the test fixture |
| `email_service.dfy` | `EmailService` | the score bands, the report as a sequence of fragments, `sendAssessmentReport` |
| `submission.dfy` | `Submission` | the pure parts of the web handlers: validation, the stored row, relabelling, the e-mail log, the results page |
| `sheet_columns.dfy` | `SheetColumns` | the shared 54-column layout: cells, columns, header texts, JSON field names, the rounded mean |
| `sheets_service.dfy` | `SheetsService` | `convertToSheetFormat`, `formatRowData`, the header list and header-write decision, configuration |
| `sheets_webhook.dfy` | `SheetsWebhook` | `convertToWebhookFormat`, the JSON object it posts, `sendToGoogleSheets`, configuration |
| `apps_script.dfy` | `AppsScript` | the web app: `setupHeaders`, `formatDataForSheet`, and `doPost` over a `Sheet` class holding rows |

## How the model is built

- **Responses.** Answers are a `map<int, int>`. `Answer(r, k)` is `r[k]`
  when present and 0 otherwise. For integer answers this is exactly
  `responses[k] || 0`.
- **Optional strings.** An optional string is `Option<string>`. It is
  truthy when present and non-empty.
- **Spreadsheet cells.** A cell or JSON scalar is `Text`, `Num` or
  `Undefined`. `Or(data, name, d)` is `data.name || d` on a parsed JSON
  object.
- **The sort.** It is an insertion sort over (skill, score) entries. Given
  the entries in declaration order, its result is proved to be:
  - the unique arrangement that is strictly ordered by (score, declaration
    index), which is what a stable ascending sort returns;
  - a permutation of its input.
- **The report.** The HTML report is modelled as its variable parts, in
  document order:
  - the information lines;
  - one item per strength, then one per weakness;
  - one table row per ranked score.
- **Column alignment.** Every writer of the 54-cell row is tied to one
  `Layout` of columns. Each column has a header text (`HeaderText`) and a
  JSON field name (`FieldName`). The row builders, the two header lists
  and the webhook's JSON object are all proved cell by cell against
  `Layout`. That is how cells are shown to sit under their headers.
- **Apps Script state.** The web app changes state in place. `Sheet` is a
  class whose `rows` field its methods reassign. `Spreadsheet.DoPost`
  creates the sheet when it is missing, repairs the header row, and
  appends one row.

The column-letter comments in the row builders ("F-AK", "AW-BB") are off by
one against the positions the code produces. The model follows the code:
the answers sit at zero-based positions 5–37, the skill scores at 38–48 and
the analysis columns at 49–53.

## Model

| member | source | states |
|---|---|---|
| `JsValues.Join` | src/google-sheets-service.ts:119-120 | joining no strings gives the empty string; joining one string gives that string |
| `JsValues.JoinSnoc` | src/google-sheets-webhook.ts:148-149 | joining a list with one more element appends the separator and that element |
| `JsValues.JoinLength` | src/google-sheets-service.ts:119-120 | a joined non-empty list is as long as its parts plus one separator between each pair |
| `JsValues.DigitChar` | src/google-sheets-service.ts:135 | the character for a digit d is a digit whose distance from '0' is d |
| `JsValues.DecimalString` | src/google-sheets-service.ts:135 | the decimal rendering of a natural number is non-empty and all digits |
| `JsValues.ParseDecimalString` | src/google-sheets-service.ts:135 | parsing the decimal rendering of n gives back n |
| `JsValues.DecimalStringInjective` | src/google-sheets-service.ts:135 | different numbers get different decimal texts, so "Qk" headers are distinct |
| `JsValues.IntString` | src/email-service.ts:342 | the rendering of any integer, negative ones included, is non-empty |
| `JsValues.IntStringRoundTrip` | src/email-service.ts:342 | parsing the rendering of an integer gives back that integer |
| `Questionnaire.SkillIndex` | src/questionnaire-data.ts:10-21 | each skill sits at its own position below 11 in the declaration-order list |
| `Questionnaire.AllSkillsIndexed` | src/questionnaire-data.ts:10-21 | the skill at position i of the declaration list has index i |
| `Questionnaire.SkillOfKey` | src/questionnaire-data.ts:10-21 | a key resolved to a skill is that skill's snake_case key |
| `Questionnaire.KeyRoundTrip` | src/questionnaire-data.ts:10-21 | a skill's key resolves back to it; a text resolves to no skill exactly when it is no skill's key |
| `Questionnaire.SkillOfLabel` | src/questionnaire-data.ts:23-35 | a label resolved to a skill is that skill's display label |
| `Questionnaire.LabelRoundTrip` | src/questionnaire-data.ts:23-35 | a skill's label resolves back to it; a text resolves to no skill exactly when it is no skill's label |
| `Questionnaire.LabelInjective` | src/questionnaire-data.ts:23-35 | two skills with the same label are the same skill |
| `Questionnaire.CatalogShape` | src/questionnaire-data.ts:37-92 | the catalog has 33 questions, question k has id k+1 and belongs to skill k/3, so each skill has exactly three consecutive items |
| `Questionnaire.ScaleShape` | src/questionnaire-data.ts:95-103 | the scale has seven labels with values 1..7 in order, all texts distinct |
| `Questionnaire.SkillCases` | src/questionnaire-data.ts:10-21 | every skill is in the declaration-order list |
| `Questionnaire.Answer` | src/questionnaire-data.ts:108-118 | `responses[k] || 0`: the answer to question k, or 0 when there is none; `ScoreOf` and `ConvertToWebhookFormatSpec` state how scores and the posted answers follow it |
| `Questionnaire.CalculateCategoryScores` | src/questionnaire-data.ts:106-122 | the result has a score for every one of the eleven skills |
| `Questionnaire.ScoreOf` | src/questionnaire-data.ts:108-118 | a skill's score is the sum of the answers to its three consecutive items, 0 for a missing answer |
| `Questionnaire.CatalogSumFrom` | src/questionnaire-data.ts:37-92 | summing the answers of a skill's questions over a catalog suffix gives the skill's three-item sum, or 0 once past the skill |
| `Questionnaire.ScoresFollowCatalog` | src/questionnaire-data.ts:106-119 | each skill's score is the sum of the answers to the questions the catalog files under that skill |
| `Questionnaire.ScoreBounds` | src/questionnaire-data.ts:108-118 | when every answer 1..33 is in 1..7, every skill score is in 3..21 |
| `Questionnaire.SumScoresPrefix` | src/questionnaire-data.ts:108-118 | the scores of the first i skills add up to the first 3i answers |
| `Questionnaire.ScoreTotal` | src/questionnaire-data.ts:108-118 | the eleven skill scores add up to the sum of the 33 answers |
| `Analysis.Insert` | src/questionnaire-data.ts:128 | one step of the stable sort: the list grows by exactly the inserted entry (`InsertPermutes`), ascending order is kept (`InsertAscending`), and so is score-then-declaration order (`InsertOrdered`) |
| `Analysis.SortByScore` | src/questionnaire-data.ts:126-128 | `.sort` by score keeps the length; `SortPermutes`, `SortAscending` and `SortStable` state that it is a stable ascending rearrangement of its input |
| `Analysis.InsertPermutes` | src/questionnaire-data.ts:126-128 | inserting an entry adds exactly that entry to the multiset |
| `Analysis.SortPermutes` | src/questionnaire-data.ts:126-128 | the sorted list is a permutation of its input |
| `Analysis.InsertAscending` | src/questionnaire-data.ts:128 | inserting into a list ascending by score keeps it ascending |
| `Analysis.SortAscending` | src/questionnaire-data.ts:128 | the sorted list is non-decreasing by score |
| `Analysis.InsertOrdered` | src/questionnaire-data.ts:128 | inserting an entry declared earlier than all others keeps the (score, declaration order) order strict |
| `Analysis.SortStable` | src/questionnaire-data.ts:126-128 | sorting entries given in declaration order yields entries ordered by score and, among equal scores, by declaration |
| `Analysis.PrecedesTotal` | src/questionnaire-data.ts:128 | the (score, declaration order) order is antisymmetric and total on distinct entries |
| `Analysis.OrderedArrangementUnique` | src/questionnaire-data.ts:126-128 | two strictly ordered arrangements of the same entries are equal: a stable sort has one possible outcome |
| `Analysis.EntriesShape` | src/questionnaire-data.ts:126-127 | there are eleven entries, in declaration order, and each is a skill paired with its own score |
| `Analysis.First3` | src/questionnaire-data.ts:131 | `slice(0, 3)` is the prefix of length three, or the whole of a shorter list |
| `Analysis.Last3` | src/questionnaire-data.ts:134 | `slice(-3)` is the suffix of length three, or the whole of a shorter list |
| `Analysis.AnalyzeResults` | src/questionnaire-data.ts:125-137 | eleven sorted entries, three strengths and three weaknesses; `SortedScoresSpec`, `SortedScoresCover`, `StrengthsAndWeaknesses`, `StrengthsScoreLowest` and `WeaknessesScoreHighest` state the order, the coverage and the score bounds |
| `Analysis.SkillsOf` | src/questionnaire-data.ts:131 | projecting entries to skills keeps length and order |
| `Analysis.SortedScoresSpec` | src/questionnaire-data.ts:126-128 | `sortedScores` has eleven entries, is a permutation of the (skill, score) pairs, is ascending, keeps declaration order on ties, and is the only such arrangement |
| `Analysis.SortedScoresCover` | src/questionnaire-data.ts:126-128 | every skill occurs exactly once in `sortedScores`, with its own score |
| `Analysis.StrengthsAndWeaknesses` | src/questionnaire-data.ts:131-134 | there are three strengths, the first three sorted skills, and three weaknesses, the last three, in ascending order, and no skill is both |
| `Analysis.StrengthsScoreLowest` | src/questionnaire-data.ts:126-134 | every strength scores at most every non-strength |
| `Analysis.WeaknessesScoreHighest` | src/questionnaire-data.ts:126-134 | every weakness scores at least every non-weakness |
| `Analysis.FixtureEntriesAre` | google-apps-script-webhook.js:182-192 | the fixture's scores give the expected eleven entries in declaration order |
| `Analysis.FixtureSorts` | google-apps-script-webhook.js:182-192 | sorting the fixture's entries gives the expected ranking, ties kept in declaration order |
| `Analysis.FixtureAnalysis` | google-apps-script-webhook.js:182-195 | for the fixture scores the strengths are Response Inhibition, Flexibility, Planning/Prioritizing and the weaknesses Emotional Control, Task Initiation, Time Management |
| `EmailService.DocumentedRange` | src/email-service.ts:362-364 | each band's documented range lies within 3..21 |
| `EmailService.BandOf` | src/email-service.ts:327-336 | a score of at most 7 is a strong area, at most 14 moderate, above that may need support; `BandsPartition` and `BandMonotone` state the bands as ranges and their order |
| `EmailService.Rank` | src/email-service.ts:327-336 | the band severities are 0, 1 and 2 |
| `EmailService.BandsPartition` | src/email-service.ts:327-336 | a score is "Strong area" iff ≤ 7, "Moderate functioning" iff in 8..14, "May need support" iff > 14 |
| `EmailService.BandsMatchLegend` | src/email-service.ts:362-364 | on 3..21 a score gets a band exactly when it lies in that band's documented range |
| `EmailService.BandMonotone` | src/email-service.ts:327-336 | a higher score never gets a milder band |
| `EmailService.BandTextInjective` | src/email-service.ts:327-336 | the three interpretation texts are distinct |
| `EmailService.StrengthItems` | src/email-service.ts:286-288 | one item per strength |
| `EmailService.WeaknessItems` | src/email-service.ts:298-300 | one item per weakness |
| `EmailService.ScoreRows` | src/email-service.ts:322-352 | one table row per ranked score |
| `EmailService.ListedConcat` | src/email-service.ts:286-352 | reading the strengths, weaknesses and rows back from a concatenation reads them from each part in turn |
| `EmailService.StrengthItemsListed` | src/email-service.ts:286-288 | the strength items read back as exactly the strengths, in order, and contain no weakness or row |
| `EmailService.WeaknessItemsListed` | src/email-service.ts:298-300 | the weakness items read back as exactly the weaknesses, in order, and contain no strength or row |
| `EmailService.ScoreRowsListed` | src/email-service.ts:322-352 | the score rows read back as themselves and contain no strength or weakness item |
| `EmailService.ScoreRowAt` | src/email-service.ts:322-352 | row i shows the i-th skill, its "score/21" text and its band text |
| `EmailService.ScoreShownReadable` | src/email-service.ts:342 | the score cell is the score's decimal text followed by "/21" and parses back to the score |
| `EmailService.GenerateEmailHTML` | src/email-service.ts:67-394 | the report as a sequence of fragments; `ReportLists`, `ReportSplit`, `InfoLinesContent` and the `Only…` lemmas state which items it lists, in which order, and that nothing else is listed |
| `EmailService.ReportLists` | src/email-service.ts:265-352 | the report lists exactly the given strengths, then the given weaknesses, then one row per ranked score in order with its band |
| `EmailService.InfoLinesListNothing` | src/email-service.ts:265-275 | the information lines contain no list item or table row |
| `EmailService.ReportSplit` | src/email-service.ts:265-352 | the report is its information lines followed by the strength items, the weakness items and the rows |
| `EmailService.InfoLinesContent` | src/email-service.ts:265-275 | the name and completion lines are always there; grade and e-mail lines are there when truthy and carry those values |
| `EmailService.GradeLineShown` | src/email-service.ts:266 | a grade line appears iff the grade level is non-empty, and it shows that grade |
| `EmailService.EmailLineShown` | src/email-service.ts:267 | an e-mail line appears iff the student e-mail is non-empty, and it shows that address |
| `EmailService.FixedLinesShown` | src/email-service.ts:265-275 | the name and the completion time are always in the report |
| `EmailService.NoInfoInLists` | src/email-service.ts:286-352 | the lists and the table hold no grade or e-mail line |
| `EmailService.OnlyStrengthItems` | src/email-service.ts:286-288 | the strength list holds only strength items |
| `EmailService.OnlyWeaknessItems` | src/email-service.ts:298-300 | the weakness list holds only weakness items |
| `EmailService.OnlyScoreRows` | src/email-service.ts:322-352 | the table holds only score rows |
| `EmailService.Subject` | src/email-service.ts:40 | the subject is "Executive Skills Assessment Results - " followed by the student name |
| `EmailService.SendAssessmentReport` | src/email-service.ts:20-64 | no key ⇔ nothing sent, with the "not configured" error; otherwise the report goes to the two fixed recipients from the fixed sender with the subject; success ⇔ delivered ⇔ no error |
| `EmailService.RejectedMessage` | src/email-service.ts:48-56 | a rejected send fails with the API's non-empty message, or "Failed to send email" |
| `Submission.StatusOf` | src/index.tsx:243-365 | 400 for a rejected body, 500 when `studentInfo` is missing, 200 otherwise; the verdict itself is stated by `ValidateSubmission` |
| `Submission.ValidateSubmission` | src/index.tsx:239-244 | 500 iff there is no student info; 400 iff the name is falsy, responses are absent or do not have exactly 33 keys; otherwise accepted with those responses |
| `Submission.UniformAnswers` | src/index.tsx:242 | n consecutive keys from lo, each mapped to v |
| `Submission.ValidationIgnoresAnswerRange` | src/index.tsx:242-247 | 33 answers of 8 are accepted and every skill scores 24, above the documented 21 |
| `Submission.ValidationIgnoresKeyRange` | src/index.tsx:242-247 | 33 answers under ids 101..133 are accepted and every skill scores 0 |
| `Submission.StoredResponses` | src/index.tsx:288 | the stored row has 33 answer columns |
| `Submission.StoredResponsesChunk` | src/index.tsx:288-299 | answer columns 3j..3j+2 of the stored row add up to the stored score of skill j |
| `Submission.StoredResponseAt` | src/index.tsx:288 | stored answer column k-1 is the answer to question k, or 0 when missing |
| `Submission.StoredCategoryScores` | src/index.tsx:289-299 | the stored row has eleven skill-score columns |
| `Submission.LabelSkills` | src/index.tsx:320-321 | relabelling keeps the length |
| `Submission.LabelEntries` | src/index.tsx:322-325 | relabelling the ranked scores keeps the length |
| `Submission.LabelSkillsInvertible` | src/index.tsx:320-321 | each relabelled entry resolves back to the skill at the same position |
| `Submission.LabelEntriesInvertible` | src/index.tsx:322-325 | each relabelled score entry keeps its score and resolves back to its skill, at the same position |
| `Submission.LabelSkillsOfEntries` | src/index.tsx:320-325 | relabelling commutes with taking the skills of the ranked entries |
| `Submission.RelabelledAnalysis` | src/index.tsx:320-325 | the relabelled ranking is ascending, and the relabelled strengths and weaknesses are its first three and last three labels |
| `Submission.LabelsAt` | src/index.tsx:320-321 | relabelled entry i is the label of skill i |
| `Submission.LabelEntriesAt` | src/index.tsx:322-325 | relabelled score entry i is the label of skill i with its unchanged score |
| `Submission.FromEntriesLookup` | src/index.tsx:314-319 | re-keying distinct skills gives one entry per skill label, with that skill's score, and no other keys |
| `Submission.AllSkillsDistinct` | src/questionnaire-data.ts:10-21 | the declaration-order skill list has no repeats |
| `Submission.LabelKeyed` | src/index.tsx:314-319 | the score record re-keyed by label; `LabelKeyedEntries` states one entry per skill, under its label with its score, and no other key |
| `Submission.LabelKeyedEntries` | src/index.tsx:314-319 | the label-keyed score map holds each skill's label with that skill's score, and every key is a label |
| `Submission.BuildEmailData` | src/index.tsx:310-327 | the data handed to the mail service; `SubmissionReport` states that its report lists the labelled strengths, weaknesses and sorted scores |
| `Submission.SubmissionReport` | src/index.tsx:310-327 | the e-mailed report lists the labels of the strengths, then of the weaknesses, then one row per ranked skill with label, score and band |
| `Submission.EmailLog` | src/index.tsx:332-343 | a log row is written iff the database is bound and the id is non-zero; it goes to the fixed recipient with the subject, status "success" iff the send succeeded, and an error message iff one was given |
| `Submission.EmailLogFollowsSend` | src/index.tsx:332-343 | the logged status matches the mail result, a logged error is the service's error, and without a key the "not configured" error is logged |
| `Submission.DisplayStored` | src/index.tsx:434 | `executiveSkillLabels[key] || key`; `DisplayStoredSpec` states that a skill key shows as its label and any other text as itself |
| `Submission.DisplayStoredSpec` | src/index.tsx:434 | a stored skill key is shown as its label; a text that is no skill key is shown unchanged |
| `Submission.DisplayStoredList` | src/index.tsx:431-451 | showing a stored list of skill keys gives the same labels the report used |
| `Submission.ResultsCategoryScores` | src/index.tsx:391-403 | the results page's label-keyed record; `ResultsScoreOf` states that each label holds its skill's stored column |
| `Submission.ResultsScoreOf` | src/index.tsx:391-403 | the results page's record maps each skill's label to that skill's stored column |
| `Submission.ResultsScoresRoundTrip` | src/index.tsx:289-299 | storing the skill scores and reading them back on the results page gives each label the score the report used |
| `Submission.PageInterpretation` | src/index.tsx:478 | the page's interpretation line; `PageAgreesWithReport` states that it uses the report's thresholds and differs only in the middle band's wording |
| `Submission.PageAgreesWithReport` | src/index.tsx:478 | the results page uses the report's thresholds (≤ 7, ≤ 14, above), with "Moderate" for the middle band |
| `SheetColumns.Or` | google-apps-script-webhook.js:130-163 | `data.name`-or-`d` is the default, or a truthy value present under that name |
| `SheetColumns.ResponseColumns` | src/google-sheets-service.ts:102 | the answer columns are Q1..Qn in order |
| `SheetColumns.ColumnIndex` | src/google-sheets-service.ts:93-123 | every column has a position below 54 |
| `SheetColumns.LayoutPosition` | src/google-sheets-service.ts:93-123 | the layout has 54 columns and each column sits at its position |
| `SheetColumns.LayoutIndexed` | src/google-sheets-service.ts:93-123 | every position holds a valid column whose position is that position, so each column occurs once |
| `SheetColumns.SkillOfCamelKey` | src/google-sheets-webhook.ts:22-32 | a camelCase field resolved to a skill is that skill's field |
| `SheetColumns.ColumnOfField` | src/google-sheets-webhook.ts:5-40 | a field resolved to a column names a valid column |
| `SheetColumns.CamelKeyRoundTrip` | src/google-sheets-webhook.ts:134-144 | a skill's camelCase field resolves back to it |
| `SheetColumns.FieldNameRoundTrip` | src/google-sheets-webhook.ts:113-152 | the JSON field of a column resolves back to that column |
| `SheetColumns.FieldNameInjective` | src/google-sheets-webhook.ts:113-152 | different columns are fed by different JSON fields |
| `SheetColumns.CopyScoresExact` | src/google-sheets-service.ts:297-307 | each snake_case score lands unchanged in the camelCase field of the same skill |
| `SheetColumns.RoundedMean` | src/google-sheets-service.ts:288 | the result r satisfies 2nr − n ≤ 2·sum < 2nr + n: it is the nearest integer to sum/n, halves rounded up as `Math.round` does |
| `SheetColumns.RoundedMeanUnique` | src/google-sheets-service.ts:288 | only one integer is that close to the mean |
| `SheetColumns.RoundedMeanBounds` | src/google-sheets-service.ts:288 | the rounded mean of n values in lo..hi lies in lo..hi |
| `SheetsService.OverallScore` | src/google-sheets-service.ts:287-288 | `Math.round` of the mean score; `OverallScoreSpec` states that it is the nearest integer to the mean and lies in 3..21 |
| `SheetsService.SumScoresBounds` | src/google-sheets-service.ts:287-288 | the sum of scores in lo..hi over a list of skills lies between count·lo and count·hi |
| `SheetsService.OverallScoreSpec` | src/google-sheets-service.ts:287-288 | the overall score is the rounded mean of the eleven scores, and lies in 3..21 when every score does |
| `SheetsService.OverallScoreOfAnswers` | src/google-sheets-service.ts:287-288 | the overall score is the rounded mean over eleven skills of the sum of the 33 answers |
| `SheetsService.ConvertToSheetFormat` | src/google-sheets-service.ts:279-312 | the sync record; `ConvertToSheetFormatSpec` states the school default, the copied scores and the overall score |
| `SheetsService.ConvertToSheetFormatSpec` | src/google-sheets-service.ts:279-312 | school is the given one when truthy and "BCS Saints" otherwise; e-mail and grade pass through; every score is copied to its camelCase field; the overall score is the rounded mean |
| `SheetsService.FormatRowData` | src/google-sheets-service.ts:84-124 | the appended row; `FormatRowDataLayout` and `SkillColumnCell` state that it has 54 cells, each the field of its column |
| `SheetsService.FormatRowDataLayout` | src/google-sheets-service.ts:93-123 | the row has 54 cells and cell i is the value of layout column i (date, name, e-mail or "", grade or "", school or "BCS Saints", the answer to question k, or 0 when missing, scores, overall, ", "-joined lists, list lengths) |
| `SheetsService.SkillColumnCell` | src/google-sheets-service.ts:105-115 | cell 38+j holds the score of the j-th skill |
| `SheetsService.ServiceHeadersLayout` | src/google-sheets-service.ts:130-144 | the header list has 54 entries and entry i is the header text of layout column i ("Q"+k at 4+k) |
| `SheetsService.SkillHeader` | src/google-sheets-service.ts:138-140 | header 38+j is the label of the j-th skill, over the cell that holds its score |
| `SheetsService.ShouldWriteHeaders` | src/google-sheets-service.ts:151 | write when the read failed or found no values, no rows or an empty first row; `EnsureHeadersSpec` states it as an if-and-only-if on the sheet |
| `SheetsService.EnsureHeaders` | src/google-sheets-service.ts:129-160 | the sheet after `ensureHeaders`; `EnsureHeadersSpec` states when row 1 becomes the header row and that other rows never change |
| `SheetsService.EnsureHeadersSpec` | src/google-sheets-service.ts:146-159 | headers are written iff reading row 1 fails or returns no values; afterwards row 1 is the header list and the other rows are kept |
| `SheetsService.InitializeGoogleSheetsSync` | src/google-sheets-service.ts:264-274 | no configuration iff the API key or the spreadsheet id is missing or empty; otherwise both are kept |
| `SheetsService.GetSpreadsheetUrl` | src/google-sheets-service.ts:256-258 | the sharing link; `SpreadsheetUrlRoundTrip` states that the id can be read back from it |
| `SheetsService.SpreadsheetUrlRoundTrip` | src/google-sheets-service.ts:256-258 | the spreadsheet id can be read back from the sharing link between its fixed prefix and "/edit" |
| `SheetsWebhook.ConvertToWebhookFormat` | src/google-sheets-webhook.ts:93-153 | the posted record; `ConvertToWebhookFormatSpec` states every field |
| `SheetsWebhook.ConvertToWebhookFormatSpec` | src/google-sheets-webhook.ts:93-153 | answer k is the answer to question k, or 0 when missing; e-mail and grade are passed on when non-empty and default to ""; school is the given one when non-empty and "BCS Saints" otherwise; scores are copied; the overall score is the rounded mean of the scores; strengths and weaknesses are joined with ", "; counts are the list lengths |
| `SheetsWebhook.LayoutValid` | src/google-sheets-webhook.ts:5-40 | the layout holds every valid column once and nothing else |
| `SheetsWebhook.FieldsOfLookup` | src/google-sheets-webhook.ts:113-152 | the JSON object built from distinct columns holds a column's field iff the column has a value, with that value, and no other keys |
| `SheetsWebhook.Payload` | src/google-sheets-webhook.ts:66 | `JSON.stringify(data)` as a field map; `PayloadFields` states that each column's field holds the record's value and undefined fields are absent |
| `SheetsWebhook.PayloadFields` | src/google-sheets-webhook.ts:66 | the posted object holds a column's field iff the record has a value there, with that value, and every key is some column's field |
| `SheetsWebhook.SendToGoogleSheets` | src/google-sheets-webhook.ts:45-88 | no URL ⇔ nothing posted, with the "not configured" error; otherwise the record's JSON object goes to the URL and success ⇔ an OK response ⇔ no error |
| `SheetsWebhook.InitializeGoogleSheetsWebhook` | src/google-sheets-webhook.ts:158-165 | null iff the URL is missing or empty; otherwise the URL itself |
| `SheetsWebhook.ConfiguredSendGoesToUrl` | src/google-sheets-webhook.ts:45-56 | a send posts exactly when the webhook is configured, and then to the configured URL |
| `SheetsWebhook.FixtureStrings` | google-apps-script-webhook.js:194-195 | for the fixture scores the joined strengths and weaknesses are the fixture's two strings |
| `SheetsWebhook.FixtureOverall` | google-apps-script-webhook.js:182-193 | for the fixture scores the overall score is 13 |
| `AppsScript.HeaderRow` | google-apps-script-webhook.js:87-107 | the header row holds the header texts, one cell each, in order |
| `AppsScript.QuestionHeaders` | google-apps-script-webhook.js:92-95 | the header list has 54 entries and entry 4+k is "Q"+k for k in 1..33 |
| `AppsScript.ScriptHeadersLayout` | google-apps-script-webhook.js:87-104 | the first header is "Timestamp", header i is the text of layout column i, and only the first header differs from the server-side list ("Date Completed") |
| `AppsScript.FormatDataForSheet` | google-apps-script-webhook.js:127-165 | the script's row; `FormatDataForSheetLayout`, `SkillFieldCell` and `MissingFieldsDefault` state its 54 cells and their defaults |
| `AppsScript.FormatDataForSheetLayout` | google-apps-script-webhook.js:127-165 | the row has 54 cells and cell i is the field of layout column i, or that column's default when the field is falsy |
| `AppsScript.SkillFieldCell` | google-apps-script-webhook.js:146-156 | cell 38+j holds the j-th skill's camelCase field, or 0 |
| `AppsScript.MissingFieldsDefault` | google-apps-script-webhook.js:130-163 | a missing or falsy field gives its column's default: the current time, "", "BCS Saints" or 0 |
| `AppsScript.RouteCell` | google-apps-script-webhook.js:127-165 | for a named student, each cell the web app writes from the webhook object equals the cell the direct sync writes |
| `AppsScript.RoutesAgree` | src/google-sheets-webhook.ts:113-152 | for a named student, the row the web app appends from the webhook object is the row the direct sync appends |
| `AppsScript.FieldsLandUnderHeaders` | google-apps-script-webhook.js:127-165 | every field the webhook object carries lands in the cell under the header that names its column |
| `AppsScript.NamelessRoutesDiffer` | google-apps-script-webhook.js:131 | without a name the web app writes "" while the direct sync leaves the cell undefined |
| `AppsScript.WithHeaderRowSpec` | google-apps-script-webhook.js:107 | writing the headers overwrites the start of row 1 in place, keeps the rest of row 1 and every other row, and creates row 1 on an empty sheet |
| `AppsScript.RepairHeaders` | google-apps-script-webhook.js:35-39 | the header check; `RepairHeadersSpec` states that row 1 is rewritten exactly when its first cell is not "Timestamp", that repairing twice changes nothing, and that other rows are kept |
| `AppsScript.RepairHeadersSpec` | google-apps-script-webhook.js:36-39 | headers are rewritten iff A1 is not "Timestamp"; afterwards A1 is "Timestamp"; repairing is idempotent and keeps all rows below row 1 |
| `AppsScript.SyncHeadedSheetRewritten` | google-apps-script-webhook.js:36-39 | a sheet headed by the direct sync ("Date Completed") gets its row 1 replaced by the web app's headers |
| `AppsScript.PostedRowsSpec` | google-apps-script-webhook.js:36-43 | a post adds one row at the end, equal to the formatted object; rows below row 1 are kept; A1 says "Timestamp" |
| `AppsScript.SavedMessage` | google-apps-script-webhook.js:51 | the message is "Assessment data saved for " followed by the student name |
| `AppsScript.Sheet.constructor` | google-apps-script-webhook.js:31 | a new sheet has no rows |
| `AppsScript.Sheet.SetupHeaders` | google-apps-script-webhook.js:86-107 | row 1 becomes the header row, written in place |
| `AppsScript.Sheet.AppendRow` | google-apps-script-webhook.js:43 | the row is added at the end and nothing else changes |
| `AppsScript.Spreadsheet.constructor` | google-apps-script-webhook.js:26-27 | the spreadsheet holds the given "Assessment Results" sheet, or none |
| `AppsScript.Spreadsheet.DoPost` | google-apps-script-webhook.js:20-67 | an unparsable body fails and changes nothing; otherwise the sheet is created if missing (fresh), its rows become the header-repaired rows plus the formatted row, and the saved message is returned |

## Left out

- The network calls: Resend, the Sheets API and the webhook `fetch`. Each call is replaced by an outcome parameter (`SendOutcome`, `PostOutcome`, `readFails`).
- `GoogleSheetsSync.syncAssessmentData` and `appendRow` (src/google-sheets-service.ts:51-79, 165-200), `updateRange`, `makeApiRequest` and `createAssessmentSpreadsheet`. These are sequences of network steps; only the header-write decision and the row they append are modelled.
- The D1 database writes in the submit handler and the `assessmentId` bookkeeping. Only the values bound (answers, scores) and the log row are modelled. The results page's database read is modelled as a row of stored scores.
- The `try`/`catch` wrappers that turn any other thrown error into a 500 or a failure response. Four caught cases are modelled: a missing `studentInfo` in the submit handler (500, src/index.tsx:363-366); an unparsable `doPost` body (`Failed`); an error thrown by the mail call (`SendOutcome.Thrown`, src/email-service.ts:58-64); and an error thrown by the webhook `fetch` (`PostOutcome.PostThrew`, src/google-sheets-webhook.ts:81-87).
- Clocks, dates, locales and time zones (`new Date()`, `toISOString`, `toLocaleString`, America/New_York). The formatted date and the current time are parameters. The two routes format dates differently, so the route-agreement lemmas take the same formatted date on both sides.
- The floating-point percentage and bar width (`score / 21 * 100`).
- HTML, CSS and page markup, the browser script and the sounds. The report is modelled as a sequence of fragments.
- `JSON.parse` and `JSON.stringify`. The webhook body is a map from field names to cells, and a parse failure is `None`.
- Key order of `Object.entries`/`Object.values` is taken to be declaration order, as JavaScript guarantees for these string keys.
- `DisplayStored`: a stored key that is an inherited property name of a JavaScript object (such as "constructor") is not modelled; only the eleven skill keys and other texts are.
- The `Sheet1!A1:BA1` range (src/google-sheets-service.ts:148) spans 53 columns while the header list has 54. The model does not claim they match, and it treats the header write as writing the whole list.
- `SpreadsheetApp` formatting in `setupHeaders` (bold, colours, auto-resize, frozen row) and the timestamp and `error.toString()` fields of `doPost`'s response.
- `doGet` (google-apps-script-webhook.js:72-81), a status page with no logic.
- `testWebhook`'s answers (3, 4, 5 for every skill) sum to 12 for every skill, which disagrees with the scores it lists. Only the listed scores and the strings derived from them are modelled.
- `AppsScript.Spreadsheet.DoPost`: the only failure modelled is an unparsable body. A missing request body or an error from `openById` happens before the sheet is touched. A body that parses to something other than an object (such as `null`) cannot be expressed, because the parsed body is an `Option<map<string, Cell>>`. Such a body, and an error thrown by `appendRow`, fail only after the sheet may have been created or had its header row rewritten (google-apps-script-webhook.js:30-39, 43, 127-129). `doPost` then answers `success: false` with the sheet left changed, and the model does not capture that state.
