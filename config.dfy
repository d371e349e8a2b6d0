/** The constants of app/config.py that the core reads. */
module Config {

  /** Words in the transcript after which a summary is attempted on every chunk. */
  const SummaryWordThreshold: int := 200

  /** Seconds since the last summary after which a summary is attempted (given enough words). */
  const SummaryTimeInterval: int := 30

  /** Sentences a summary keeps. */
  const SummarySentenceCount: int := 3

  /** Largest accepted upload, in bytes (10 MB). */
  const MaxChunkSize: int := 10 * 1024 * 1024

  /** Accepted file extensions, lower case, with their dot. */
  const SupportedFormats: seq<string> := [".webm", ".ogg", ".wav", ".mp3", ".m4a"]
}
