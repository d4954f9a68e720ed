/** Saving a piece of user feedback and its summary to the feedback collection. */
module Feedback {
  import opened Wrappers

  /** The one message every failed write is reported with. */
  const SaveFailedMessage := "Could not save feedback to the database."

  /** A stored feedback document (its server timestamp aside). */
  datatype FeedbackDoc = FeedbackDoc(originalFeedback: string, summary: string)

  datatype SaveOutcome = Saved | SaveFailed(message: string)

  /** The feedback collection. */
  class FeedbackCollection {
    var docs: seq<FeedbackDoc>

    constructor ()
      ensures docs == []
    {
      docs := [];
    }

    /**
     * Adds a document holding exactly the two strings passed. `writeError` is the error the
     * database raises, if any; whatever it says, the caller sees the single fixed message and the
     * collection is unchanged.
     */
    method SaveFeedback(originalFeedback: string, summary: string, writeError: Option<string>) returns (r: SaveOutcome)
      modifies this
      ensures writeError.None? ==> r == Saved && docs == old(docs) + [FeedbackDoc(originalFeedback, summary)]
      ensures writeError.Some? ==> r == SaveFailed(SaveFailedMessage) && docs == old(docs)
    {
      if writeError.Some? {
        return SaveFailed(SaveFailedMessage);
      }
      docs := docs + [FeedbackDoc(originalFeedback, summary)];
      r := Saved;
    }
  }
}
