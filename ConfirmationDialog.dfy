/** The confirmation dialog's text: the message, followed, when a date
    filter is set, by a "Filter applied:" block with a line for each bound
    that is set. `format` stands for the dialog's locale date formatter. */
module ConfirmationDialog {
  import opened Wrappers
  import opened Calendar

  const FilterHeader := "\n\nFilter applied:"

  function FromLine(d: LocalDate, format: LocalDate -> string): string
  {
    "\nFrom: " + format(d)
  }

  function ToLine(d: LocalDate, format: LocalDate -> string): string
  {
    "\nTo: " + format(d)
  }

  /** The full message the dialog shows. */
  function FullMessage(message: string, from: Option<LocalDate>, to: Option<LocalDate>, format: LocalDate -> string): string
  {
    if from.None? && to.None? then message
    else
      message + FilterHeader
      + (if from.Some? then FromLine(from.value, format) else "")
      + (if to.Some? then ToLine(to.value, format) else "")
  }

  /** `buildString`: the message, then the appends the bounds call for. */
  method BuildFullMessage(message: string, from: Option<LocalDate>, to: Option<LocalDate>, format: LocalDate -> string)
    returns (s: string)
    ensures s == FullMessage(message, from, to, format)
  {
    s := message;
    if from.Some? || to.Some? {
      s := s + FilterHeader;
      if from.Some? {
        s := s + FromLine(from.value, format);
      }
      if to.Some? {
        s := s + ToLine(to.value, format);
      }
    }
  }

  /** The message always opens the full message. */
  lemma MessageIsPrefix(message: string, from: Option<LocalDate>, to: Option<LocalDate>, format: LocalDate -> string)
    ensures message <= FullMessage(message, from, to, format)
  {
  }

  /** Something follows the message exactly when a date bound is set. */
  lemma SuffixIffFilter(message: string, from: Option<LocalDate>, to: Option<LocalDate>, format: LocalDate -> string)
    ensures FullMessage(message, from, to, format) == message <==> from.None? && to.None?
  {
    if from.Some? || to.Some? {
      assert |FullMessage(message, from, to, format)| >= |message| + |FilterHeader|;
    }
  }

  /** With both bounds set the header comes first, then the From line, then
      the To line, which ends the text. */
  lemma FromLineBeforeToLine(message: string, a: LocalDate, b: LocalDate, format: LocalDate -> string)
    ensures var s := FullMessage(message, Some(a), Some(b), format);
      var i := |message| + |FilterHeader|;
      var j := i + |FromLine(a, format)|;
      s[|message|..i] == FilterHeader && s[i..j] == FromLine(a, format) && s[j..] == ToLine(b, format)
  {
  }
}
