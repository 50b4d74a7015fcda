/**
 * The replay-timestamp file `.replay_timestamp` (index.js:121-167): how the
 * subscribe position is loaded at connection open and what a store issued
 * for a timestamped notification leaves in the file.
 */
module ReplayStore {
  import opened Wrappers
  import opened Json

  /** The file holds exactly this many characters of an ISO 8601 timestamp. */
  const TimestampLength := 24

  /** What the client finds at `.replay_timestamp`. */
  datatype FileState =
    | Missing                        // opening it for reading fails: no such file
    | Unreadable                     // opening or reading it throws for another reason
    | Present(contents: seq<char>)   // a file that reads back `contents`

  /**
   * `loadReplayTimestamp()`: the first 24 characters of the file when it has
   * that many; "now" when the file opened but was shorter (the override is not
   * consulted); and when opening or reading threw, the override `from` if it
   * is set to a non-empty text, otherwise "now". It has no error result:
   * every case yields a timestamp.
   */
  function Load(file: FileState, from: Option<string>, nowIso: string): (r: string)
    ensures file.Present? && |file.contents| >= TimestampLength ==>
              r == file.contents[..TimestampLength]
    ensures file.Present? && |file.contents| < TimestampLength ==> r == nowIso
    ensures !file.Present? && from.Some? && from.value != "" ==> r == from.value
    ensures !file.Present? && (from.None? || from == Some("")) ==> r == nowIso
  {
    match file
    case Present(contents) =>
      if |contents| >= TimestampLength then contents[..TimestampLength] else nowIso
    case _ =>
      if from.Some? && from.value != "" then from.value else nowIso
  }

  /**
   * `storeReplayTimestamp(timestamp)`, once it completes. When the file cannot
   * be opened for writing (`writable` is false) the error is logged and the
   * file is left as it was. Otherwise opening truncates it, and the write of
   * 24 characters from position 0 succeeds only for a string of at least 24
   * characters; a shorter string, or a value `Buffer.from` rejects, leaves the
   * file empty.
   */
  function Store(file: FileState, timestamp: Json, writable: bool): (r: FileState)
    ensures !writable ==> r == file
    ensures writable ==> r.Present? && (|r.contents| == 0 || |r.contents| == TimestampLength)
    ensures writable && timestamp.JStr? && |timestamp.s| >= TimestampLength ==>
              r == Present(timestamp.s[..TimestampLength])
    ensures writable && !(timestamp.JStr? && |timestamp.s| >= TimestampLength) ==> r == Present([])
  {
    if !writable then file
    else match timestamp
      case JStr(s) => if |s| >= TimestampLength then Present(s[..TimestampLength]) else Present([])
      case _ => Present([])
  }

  /** Storing a 24-character timestamp and loading gives it back, whatever `from` and "now" are. */
  lemma StoreThenLoad(file: FileState, ts: string, from: Option<string>, nowIso: string)
    requires |ts| == TimestampLength
    ensures Load(Store(file, JStr(ts), true), from, nowIso) == ts
  {
  }

  /** A store that could write leaves a file the next load reads without consulting `from`. */
  lemma StoreOutranksOverride(file: FileState, ts: Json, from: Option<string>, from': Option<string>, nowIso: string)
    ensures Load(Store(file, ts, true), from, nowIso) == Load(Store(file, ts, true), from', nowIso)
  {
  }

  /** Storing a string shorter than 24 characters makes the next load fall back to "now". */
  lemma ShortStoreLoadsNow(file: FileState, ts: string, from: Option<string>, nowIso: string)
    requires |ts| < TimestampLength
    ensures Load(Store(file, JStr(ts), true), from, nowIso) == nowIso
  {
  }

  /** Only the latest completed store counts. */
  lemma LastStoreWins(file: FileState, t1: Json, t2: Json)
    ensures Store(Store(file, t1, true), t2, true) == Store(file, t2, true)
  {
  }
}
