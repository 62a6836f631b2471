/** The simple matcha log of the second calendar page: a map from a day's
    `toDateString()` key to a flag that each click flips. */
module DayToggle {

  type MatchaLog = map<string, bool>

  /** `matchaLog[key]` read as a boolean: an absent key is falsy. */
  predicate Marked(log: MatchaLog, key: string) {
    key in log && log[key]
  }

  /** `tileClassName`: a tile is highlighted exactly when its key maps to
      `true`. */
  function TileClass(log: MatchaLog, key: string): (c: string)
    ensures c != "" <==> key in log && log[key]
  {
    if Marked(log, key) then "bg-green-300 rounded-full" else ""
  }

  /** `handleDayClick(value)`: store the negation of the current flag under
      the clicked day's key; other keys keep their entries. */
  function HandleDayClick(log: MatchaLog, key: string): (log': MatchaLog)
    ensures key in log'
    ensures Marked(log', key) <==> !Marked(log, key)
    ensures forall k :: k != key ==> (k in log' <==> k in log) && (k in log ==> log'[k] == log[k])
  {
    log[key := !Marked(log, key)]
  }

  /** Two clicks on the same day leave it highlighted exactly as before,
      so a day never clicked is not highlighted after two clicks. */
  lemma ClickTwice(log: MatchaLog, key: string)
    ensures Marked(HandleDayClick(HandleDayClick(log, key), key), key) == Marked(log, key)
    ensures key !in log ==> TileClass(HandleDayClick(HandleDayClick(log, key), key), key) == ""
  {
  }

  /** Clicking one day changes the highlight of no other day. */
  lemma ClickIsLocal(log: MatchaLog, key: string, other: string)
    requires other != key
    ensures TileClass(HandleDayClick(log, key), other) == TileClass(log, other)
  {
  }
}
