/**
 The message-list rendering that OutcomeResult.ToMultiLine delegates to
 (MultiLineFormatter.ToMultiLine). Only its documented contract is modelled:
 every message is followed by the delimiter, the last one included, and a
 missing or empty delimiter stands for a single space.
 */
module Formats {
  import opened Wrappers

  /** The text that actually follows each message. */
  function Delimiter(delimiter: Option<string>): (r: string)
    ensures r != []
    ensures delimiter == None || delimiter == Some("") ==> r == " "
    ensures delimiter.Some? && delimiter.value != "" ==> r == delimiter.value
  {
    match delimiter
    case None => " "
    case Some(d) => if d == "" then " " else d
  }

  /** Total number of characters in a list of messages. */
  function TotalLength(messages: seq<string>): nat
  {
    if messages == [] then 0 else |messages[0]| + TotalLength(messages[1..])
  }

  /**
   Separator-style join: `sep` only BETWEEN consecutive messages. Used as an
   independent reference for the after-each-message rendering.
   */
  function Join(messages: seq<string>, sep: string): string
  {
    if messages == [] then ""
    else if |messages| == 1 then messages[0]
    else messages[0] + sep + Join(messages[1..], sep)
  }

  /** Each message followed by the effective delimiter, in list order. */
  function ToMultiLine(delimiter: Option<string>, messages: seq<string>): (r: string)
    ensures r == [] <==> messages == []
    ensures |r| == TotalLength(messages) + |messages| * |Delimiter(delimiter)|
  {
    if messages == [] then ""
    else messages[0] + Delimiter(delimiter) + ToMultiLine(delimiter, messages[1..])
  }

  /** Rendering distributes over concatenation of message lists. */
  lemma {:induction false} MultiLineAppend(delimiter: Option<string>, a: seq<string>, b: seq<string>)
    ensures ToMultiLine(delimiter, a + b) == ToMultiLine(delimiter, a) + ToMultiLine(delimiter, b)
  {
    if a != [] {
      assert (a + b)[1..] == a[1..] + b;
      MultiLineAppend(delimiter, a[1..], b);
    } else {
      assert a + b == b;
    }
  }

  /** Appending one message appends exactly that message and one delimiter. */
  lemma MultiLineSnoc(delimiter: Option<string>, messages: seq<string>, m: string)
    ensures ToMultiLine(delimiter, messages + [m]) == ToMultiLine(delimiter, messages) + m + Delimiter(delimiter)
  {
    MultiLineAppend(delimiter, messages, [m]);
    assert ToMultiLine(delimiter, [m]) == m + Delimiter(delimiter) by {
      assert [m][1..] == [];
    }
  }

  /**
   The delimiter is a terminator, not a separator: for a non-empty list the
   rendering is the separator-join followed by one more delimiter.
   */
  lemma {:induction false} MultiLineIsJoinThenDelimiter(delimiter: Option<string>, messages: seq<string>)
    requires messages != []
    ensures ToMultiLine(delimiter, messages) == Join(messages, Delimiter(delimiter)) + Delimiter(delimiter)
  {
    if |messages| == 1 {
      assert messages[1..] == [];
    } else {
      MultiLineIsJoinThenDelimiter(delimiter, messages[1..]);
    }
  }

  /** The empty delimiter renders exactly as no delimiter at all. */
  lemma {:induction false} EmptyDelimiterIsNoDelimiter(messages: seq<string>)
    ensures ToMultiLine(Some(""), messages) == ToMultiLine(None, messages)
  {
    if messages != [] {
      EmptyDelimiterIsNoDelimiter(messages[1..]);
    }
  }

  /** The documented examples: a space after each message, or the delimiter after each, last included. */
  lemma RenderingExamples()
    ensures ToMultiLine(None, ["a", "b"]) == "a b "
    ensures ToMultiLine(Some("; "), ["a", "b"]) == "a; b; "
    ensures ToMultiLine(Some("; "), []) == ""
  {
    assert ["a", "b"][1..] == ["b"];
    assert ["b"][1..] == [];
  }
}
