# Resume screening: the analysis callback

This project models the screening pipeline that runs when the "Analyze" button
of the resume screening app is pressed (`analyze_resumes` in
`resume-screening/app.py`). It also proves properties of that model. The
pipeline has four parts:

- **Request gate.** Before any click, the callback shows nothing. After a click
  with no uploaded resume or no job description, it shows an alert and
  processes nothing.
- **Per-document loop.** Each uploaded file is paired with its file name, as
  `zip` pairs them. Each pair gives exactly one row. A document whose
  processing raises an exception gives a row with score 0 and an
  `Error: <message>` recommendation. The loop then goes on to the next
  document.
- **Classifier.** Thresholds 75 and 50 split the scores into Strong, Moderate
  and Poor Fit. Each tier includes its lower bound. The row colour uses the
  same thresholds.
- **Ranking and summary.** The rows are sorted by score, largest first; the
  sort is stable. The summary shows the first row's score as the top match,
  and the number of rows.

Modules, one per component:

- `classifier.dfy` (`Classifier`): thresholds, tiers, colours, recommendation texts.
- `results.dfy` (`Results`): the per-document outcome and the table row built from it.
- `ranking.dfy` (`Ranking`): the stable descending sort and the summary.
- `screening.dfy` (`Screening`): the gate, the collecting loop and the callback.

Scores are Dafny `real` numbers. Only their order and their comparisons with 50
and 75 matter here.

Lines 121-128 of the `try` block split the data URL, decode the base64, write
the file, extract the PDF text and compute the similarity. The model passes all
of this in as one total function parameter, `process`, from (content, file
name, job description) to `Scored(score)` or `Failed(message)`. Any exception
in that work, wherever it is raised, is a `Failed` outcome. The rest of the
`try` block, lines 130-138, picks the colour and the tier and appends the row;
it is modelled by `Classifier.ColourOf` and `Results.EntryFor`, which cannot
fail. An exception the comparisons at lines 130 and 135 could raise is folded
into a `Failed` outcome of `process`.

Two behaviours of the code worth noting:

- A job description made only of blanks (spaces, tabs, line breaks) is a
  non-empty string, so Python treats it as true. The code processes the batch
  in that case (`Screening.BlankJobDescriptionIsAdmitted`); it does not reject
  it.
- An errored row carries only the `Error: ` text. It has no separate tier.

## Model

| member | source | states |
|---|---|---|
| `Classifier.Classify` | resume-screening/app.py:135-137 | the tier is total over all scores; it is the one and only tier whose band holds the score: at least 75 is Strong, from 50 up to but not including 75 is Moderate, below 50 is Poor |
| `Classifier.ColourOf` | resume-screening/app.py:130 | the colour is the colour of the score's tier (green for Strong, orange for Moderate, red for Poor); each colour is chosen exactly when the score lies in that tier's band |
| `Classifier.RecommendationInjective` | resume-screening/app.py:135-137 | different tiers get different recommendation texts |
| `Classifier.BoundariesResolveUpward` | resume-screening/app.py:135-137 | 75 is Strong and 50 is Moderate; 74.99 is Moderate and 49.99 is Poor |
| `Results.RecommendationIsNotError` | resume-screening/app.py:135-141 | no tier's recommendation text starts with `Error: ` |
| `Results.EntryFor` | resume-screening/app.py:130-141 | the row names the document's own file; it reads as an error exactly when the document failed; a failed row scores 0 and ends in the exception message; a scored row keeps its score, labelled with the tier whose band holds it |
| `Ranking.Insert` | resume-screening/app.py:143 | inserting a row into a sorted sequence keeps it sorted and adds exactly that row |
| `Ranking.Rank` | resume-screening/app.py:143 | the ranking has the same length as its input, is sorted by score with no increase, and is a permutation of the collected rows |
| `Ranking.InsertWithScore` | resume-screening/app.py:143 | an inserted row goes in front of the rows with the same score |
| `Ranking.RankIsStable` | resume-screening/app.py:143 | for every score, the rows with that score keep their submission order |
| `Ranking.RankedHeadIsMaximum` | resume-screening/app.py:143-146 | every collected row is in the ranking; the first ranked row is a collected row, and no collected row scores more |
| `Ranking.RankedBelowErrorScoresAtMostZero` | resume-screening/app.py:141-143 | if errored rows score 0, any row ranked below an errored row scores at most 0 |
| `Ranking.RankExample` | resume-screening/app.py:143 | scores 62.3, 91.0, 40.0 rank as second, first, third |
| `Ranking.Summarize` | resume-screening/app.py:146-147 | the count is the number of rows; the top score is the score of a present row; on a sorted ranking, no row scores more than it |
| `Ranking.SummaryOfRanking` | resume-screening/app.py:143-147 | the summary of the ranked rows counts every collected row; its top score is the maximum over all collected rows and is reached by one of them |
| `Ranking.SummaryExample` | resume-screening/app.py:146-147 | rows ranked 91.0, 62.3, 40.0 summarise to top score 91.0 and count 3 |
| `Screening.Admit` | resume-screening/app.py:110-115 | no click gives an empty result; after a click, missing or empty contents, or a missing or empty job description, gives the alert; only a click with both present and non-empty is admitted |
| `Screening.BlankJobDescriptionIsAdmitted` | resume-screening/app.py:113 | a job description made only of spaces, tabs or line breaks is not rejected |
| `Screening.Collect` | resume-screening/app.py:117-141 | the loop collects exactly the rows of the zipped pairs, in input order: row k is the row of document k's own outcome |
| `Screening.ScreenedRowPerDocument` | resume-screening/app.py:119-141 | there are min(contents, file names) rows; row i names file i; it is an error row with score 0 exactly when document i failed; otherwise it keeps document i's score |
| `Screening.FailureIsIsolated` | resume-screening/app.py:119-141 | changing the outcome of one document leaves every other row unchanged |
| `Screening.AnalyzeResumes` | resume-screening/app.py:109-147 | no click gives an empty result; a rejected request gives the alert; an admitted one gives the ranked rows and their summary, with one row per zipped pair, sorted, counted, and topped by the maximum score |

## Left out

- The Dash layout, navigation bar, cards, styles, the table's conditional formatting and server startup (app.py lines 9-97 and 149-186): presentation only.
- Splitting the data URL, base64 decoding and writing the file to the upload directory (lines 121-125): I/O. Any failure there is part of the injected `Failed` outcome.
- `extract_text_from_pdf`, `compute_similarity` and `ensure_dir`: their modules are not part of this model. Text extraction and scoring are the opaque `process` parameter. So the model says nothing about the range of scores, their rounding, or floating-point behaviour (such as NaN in a comparison).
- The text of the exception message: an arbitrary string.
- Results.EntryFor and Classifier.ColourOf cannot fail: a score that cannot be compared with 75 or 50 (lines 130 and 135 would raise inside the `try` block and give an `Error:` row) is assumed to have been reported by `process` as a `Failed` outcome, because the scores here are always comparable reals.
- Screening.AnalyzeResumes: where the source crashes, the model has a precondition instead. The source raises IndexError at line 146 when `zip` yields nothing, here when the file names are empty. It raises TypeError at line 119 when there are contents but the file names are None.
- The row colour of line 130 is computed by the source and then never used. `Classifier.ColourOf` models it, but the loop does not build it.
- A later document with the same file name overwrites the earlier file on disk. The model treats each document's outcome as a function of its own content, file name and job description.
- `n_clicks` is modelled as a natural number. Dash starts it at 0 and never passes None here.
