/** Display helpers for dates and long texts. */
module Format {
  import opened JsValues
  import opened Wrappers

  /** The em dash shown for a missing value. */
  const Dash := "\U{2014}"
  /** The ellipsis appended to a shortened text. */
  const Ellipsis := '\U{2026}'
  const DefaultTruncateLength := 80

  /** JavaScript's `!text` for an optional string: missing, `null` or empty. */
  predicate Blank(text: Nullable<string>) {
    !text.Defined? || text.value == ""
  }

  /**
   * `s.slice(0, end)`: a negative end counts from the back of the string,
   * an end past the string is clamped to its length.
   */
  function SliceTo(s: string, end: int): (r: string)
    ensures end >= 0 ==> r == s[..if end <= |s| then end else |s|]
    ensures end < 0 ==> r == s[..if |s| + end >= 0 then |s| + end else 0]
  {
    if end < 0 then s[..if |s| + end >= 0 then |s| + end else 0]
    else if end <= |s| then s[..end] else s
  }

  /**
   * Formats a timestamp for display. Parsing the value into a date and
   * rendering it for the user's locale is the host runtime's business and is
   * given as `render`, which answers None for a value that is not a date.
   */
  function FormatDateTime(value: Nullable<string>, render: string -> Option<string>): (r: string)
    ensures Blank(value) ==> r == Dash
    ensures !Blank(value) && render(value.value).None? ==> r == Dash
    ensures !Blank(value) && render(value.value).Some? ==> r == render(value.value).value
  {
    if Blank(value) then Dash
    else match render(value.value)
      case None => Dash
      case Some(shown) => shown
  }

  /** Shortens a text to at most `length` characters followed by an ellipsis. */
  function Truncate(text: Nullable<string>, length: int := DefaultTruncateLength): (r: string)
    ensures Blank(text) ==> r == Dash
    ensures !Blank(text) && |text.value| <= length ==> r == text.value
    ensures !Blank(text) && 0 <= length < |text.value| ==>
      |r| == length + 1 && r[..length] == text.value[..length] && r[length] == Ellipsis
    ensures length >= 0 ==> |r| <= length + 1
  {
    if Blank(text) then Dash
    else if |text.value| > length then SliceTo(text.value, length) + [Ellipsis]
    else text.value
  }

  /** With a limit of at least one character, truncating twice is truncating once. */
  lemma TruncateIdempotent(text: Nullable<string>, length: int)
    requires length >= 1
    ensures Truncate(Defined(Truncate(text, length)), length) == Truncate(text, length)
  {
  }
}
