/** Joining strings with a separator, as Go's `strings.Join` and Python's
    `str.join` do. */
module Text {

  function JoinWith(sep: string, parts: seq<string>): string
  {
    if |parts| == 0 then ""
    else if |parts| == 1 then parts[0]
    else parts[0] + sep + JoinWith(sep, parts[1..])
  }

  /** The joined string starts with the first part, so it is empty only
      when there are no parts or the first part is empty. */
  lemma JoinWithStartsWithFirst(sep: string, parts: seq<string>)
    requires |parts| > 0
    ensures |JoinWith(sep, parts)| >= |parts[0]| && JoinWith(sep, parts)[..|parts[0]|] == parts[0]
  {
  }
}
