/**
 * Newline-separated text: joining lines with "\n" and splitting text at
 * every "\n" (Python's `"\n".join(lines)` and `text.split("\n")`).
 */
module Strings {

  /** Python's `"\n".join(lines)`. */
  function Join(lines: seq<string>): string
  {
    if |lines| == 0 then ""
    else if |lines| == 1 then lines[0]
    else lines[0] + "\n" + Join(lines[1..])
  }

  /** Python's `text.split("\n")`: the pieces between newlines, at least one. */
  function Split(text: string): (pieces: seq<string>)
    ensures |pieces| >= 1
  {
    if text == [] then [""]
    else
      var rest := Split(text[1..]);
      if text[0] == '\n' then [""] + rest
      else [[text[0]] + rest[0]] + rest[1..]
  }

  predicate EndsWith(text: string, suffix: string)
  {
    |suffix| <= |text| && text[|text| - |suffix|..] == suffix
  }

  /** Text without a newline is a single line. */
  lemma {:induction false} SplitSingle(text: string)
    requires '\n' !in text
    ensures Split(text) == [text]
  {
    if text != [] {
      assert text[0] in text;
      SplitSingle(text[1..]);
      assert [text[0]] + text[1..] == text;
    }
  }

  /** Splitting at a newline separates the text before it from the text after it. */
  lemma {:induction false} SplitAtNewline(before: string, after: string)
    ensures Split(before + "\n" + after) == Split(before) + Split(after)
  {
    if before == [] {
      assert before + "\n" + after == "\n" + after;
      assert ("\n" + after)[1..] == after;
    } else {
      var whole := before + "\n" + after;
      assert whole[0] == before[0];
      assert whole[1..] == before[1..] + "\n" + after;
      SplitAtNewline(before[1..], after);
    }
  }

  /** Joining newline-free lines and splitting the result gives the lines back. */
  lemma {:induction false} SplitJoin(lines: seq<string>)
    requires |lines| >= 1
    requires forall i :: 0 <= i < |lines| ==> '\n' !in lines[i]
    ensures Split(Join(lines)) == lines
  {
    if |lines| == 1 {
      SplitSingle(lines[0]);
    } else {
      SplitJoin(lines[1..]);
      SplitSingle(lines[0]);
      SplitAtNewline(lines[0], Join(lines[1..]));
      assert [lines[0]] + lines[1..] == lines;
    }
  }
}
