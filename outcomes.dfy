/** Errors a render run can end with, and the result type that carries them.
    Every failure of VideoProcessor.run is reported once on its error
    channel; here it is the Err arm of a Result. */
module Outcomes {

  datatype Error =
    | InvalidMusicFile          // the music path is not a file
    | InvalidInputDirectory     // the clip directory does not exist
    | InvalidOutputDirectory    // the output directory does not exist
    | TooFewClips               // fewer than two video files in the clip directory
    | AudioUndecodable          // the music file could not be loaded
    | NoCutTimes                // no beat and no onset: indexing the empty merged list fails
    | ClipUndecodable(file: string)  // a video file could not be opened
    | NoSegments                // every cut interval was skipped: nothing to concatenate

  datatype Result<T> = Ok(value: T) | Err(error: Error)

  datatype Option<T> = None | Some(value: T)

  /** The text the run emits on its error channel for the failures it words
      itself (lines 73, 205, 208 and 211). For the others it emits the text of
      the exception the libraries raised (line 201), which is not modelled:
      None. */
  function Message(e: Error): (m: Option<string>)
    ensures m.Some? <==> e.InvalidMusicFile? || e.InvalidInputDirectory? ||
                         e.InvalidOutputDirectory? || e.TooFewClips?
    ensures m.Some? ==> |m.value| > 0
  {
    match e
    case InvalidMusicFile => Some("Invalid music file")
    case InvalidInputDirectory => Some("Invalid input directory")
    case InvalidOutputDirectory => Some("Invalid output directory")
    case TooFewClips => Some("At least 2 video files are required")
    case _ => None
  }

  /** A user can tell the worded failures apart by their text. */
  lemma MessagesDistinct(e1: Error, e2: Error)
    requires Message(e1).Some? && Message(e2).Some? && e1 != e2
    ensures Message(e1) != Message(e2)
  {
  }
}
