/** One row of the results table and how a document's outcome becomes one. */
module Results {
  import opened Classifier

  /** What the per-document work (splitting the upload, decoding it, writing
      it, extracting its text and scoring it) ends in: a score, or the message
      of the exception it raised. */
  datatype Outcome = Scored(score: real) | Failed(message: string)

  /** A row: the "Resume", "Match Score (%)" and "Recommendation" columns. */
  datatype Entry = Entry(resume: string, score: real, recommendation: string)

  /** What the recommendation of a failed document starts with. */
  const ErrorPrefix: string := "Error: "

  predicate IsErrorText(text: string) {
    ErrorPrefix <= text
  }

  /** The text of a scored document never looks like an error. */
  lemma RecommendationIsNotError(t: Tier)
    ensures !IsErrorText(Recommendation(t))
  {
    assert Recommendation(t)[0] != ErrorPrefix[0];
  }

  /** The row a document produces. A scored document keeps its score and is
      labelled with the tier whose band holds it; a failed one scores 0 and
      carries the exception message after the error prefix. Either way the
      row names the document's own file, and the row reads as an error exactly
      when the document failed. */
  function EntryFor(filename: string, outcome: Outcome): (e: Entry)
    ensures e.resume == filename
    ensures IsErrorText(e.recommendation) <==> outcome.Failed?
    ensures outcome.Failed? ==>
      e.score == 0.0 && e.recommendation[|ErrorPrefix|..] == outcome.message
    ensures outcome.Scored? ==>
      e.score == outcome.score &&
      forall t: Tier :: InBand(t, e.score) ==> e.recommendation == Recommendation(t)
  {
    match outcome
    case Scored(score) =>
      RecommendationIsNotError(Classify(score));
      Entry(filename, score, Recommendation(Classify(score)))
    case Failed(message) =>
      Entry(filename, 0.0, ErrorPrefix + message)
  }
}
