/** The progressive console tail: every Ajax response appends its text to what is shown,
    keeps only the last N lines, and advances the fetch offset and the console annotator. */
module ConsoleTail {
  import opened JavaLang

  const NL: char := '\n'
  const MORE_DATA: string := "true"

  /** JavaScript `s.split('\n')`: the pieces between newlines, always at least one. */
  function Split(s: string): (pieces: seq<string>)
    ensures |pieces| >= 1
    ensures forall i :: 0 <= i < |pieces| ==> NL !in pieces[i]
  {
    if |s| == 0 then [[]]
    else if s[0] == NL then [[]] + Split(s[1..])
    else
      var rest := Split(s[1..]);
      [[s[0]] + rest[0]] + rest[1..]
  }

  /** JavaScript `lines.join('\n')`. */
  function Join(lines: seq<string>): string {
    if |lines| == 0 then []
    else if |lines| == 1 then lines[0]
    else lines[0] + [NL] + Join(lines[1..])
  }

  /** Joining the pieces of a split gives the string back. */
  lemma {:induction false} JoinSplit(s: string)
    ensures Join(Split(s)) == s
    decreases |s|
  {
    if |s| > 0 {
      JoinSplit(s[1..]);
      var rest := Split(s[1..]);
      assert s == [s[0]] + s[1..];
      if s[0] == NL {
        assert Split(s) == [[]] + rest;
        assert Join(Split(s)) == [] + [NL] + Join(rest);
      } else if |rest| == 1 {
        assert Split(s) == [[s[0]] + rest[0]];
      } else {
        var first := [s[0]] + rest[0];
        assert Split(s) == [first] + rest[1..];
        assert Join(Split(s)) == first + [NL] + Join(rest[1..]);
        assert Join(rest) == rest[0] + [NL] + Join(rest[1..]);
      }
    }
  }

  /** Prefixing a string that holds no newline extends the first piece only. */
  lemma {:induction false} SplitAfterLine(a: string, b: string)
    requires NL !in a
    ensures Split(a + b) == [a + Split(b)[0]] + Split(b)[1..]
    decreases |a|
  {
    if |a| > 0 {
      assert (a + b)[1..] == a[1..] + b;
      assert (a + b)[0] == a[0] && a[0] != NL;
      SplitAfterLine(a[1..], b);
      var rest := Split(a[1..] + b);
      assert Split(a + b) == [[a[0]] + rest[0]] + rest[1..];
      assert rest[1..] == Split(b)[1..];
      assert [a[0]] + (a[1..] + Split(b)[0]) == a + Split(b)[0];
    } else {
      assert a + b == b;
      assert a + Split(b)[0] == Split(b)[0];
      assert Split(b) == [Split(b)[0]] + Split(b)[1..];
    }
  }

  /** Splitting lines joined with newlines gives back the lines, when none of them holds
      a newline. */
  lemma {:induction false} SplitJoin(lines: seq<string>)
    requires |lines| >= 1
    requires forall i :: 0 <= i < |lines| ==> NL !in lines[i]
    ensures Split(Join(lines)) == lines
    decreases |lines|
  {
    if |lines| == 1 {
      SplitAfterLine(lines[0], []);
      assert lines[0] + [] == lines[0];
    } else {
      var rest := Join(lines[1..]);
      SplitJoin(lines[1..]);
      assert Join(lines) == lines[0] + ([NL] + rest);
      SplitAfterLine(lines[0], [NL] + rest);
      assert ([NL] + rest)[1..] == rest;
      assert Split([NL] + rest) == [[]] + Split(rest);
      assert lines[0] + [] == lines[0];
      assert lines == [lines[0]] + lines[1..];
    }
  }

  /** Dropping the first k pieces of a split leaves a suffix of the string. */
  lemma {:induction false} SplitDropIsSuffix(s: string, k: nat)
    requires k < |Split(s)|
    ensures IsSuffix(Join(Split(s)[k..]), s)
    decreases |s|
  {
    if k == 0 {
      JoinSplit(s);
      assert Split(s)[0..] == Split(s);
    } else if s[0] == NL {
      assert Split(s)[k..] == Split(s[1..])[k - 1..];
      SplitDropIsSuffix(s[1..], k - 1);
    } else {
      assert Split(s)[k..] == Split(s[1..])[k..];
      SplitDropIsSuffix(s[1..], k);
    }
  }

  /** The displayed text after a non-empty response: the text, or, when it has more
      than `lines` lines, `curLines.slice(curLines.length - lines).join('\n')`. */
  function TailText(text: string, lines: int): (shown: string)
    ensures |Split(text)| <= lines ==> shown == text
    ensures |Split(text)| > lines > 0 ==>
              && IsSuffix(shown, text)
              && Split(shown) == Split(text)[|Split(text)| - lines..]
              && |Split(shown)| == lines
    ensures |Split(text)| > lines && lines <= 0 ==> shown == []
  {
    var curLines := Split(text);
    if |curLines| > lines then
      var kept := if lines > 0 then curLines[|curLines| - lines..] else [];
      if lines > 0 then
        SplitDropIsSuffix(text, |curLines| - lines);
        SplitJoin(kept);
        Join(kept)
      else Join(kept)
    else text
  }

  /** What onComplete reads from the response. */
  datatype Response = Response(responseText: string, textSize: Option<string>,
                               consoleAnnotator: Option<string>, moreData: Option<string>)

  /** The offset: initially the parsed attribute, later whatever the X-Text-Size header
      held. */
  datatype Offset = ByteOffset(n: nat) | HeaderValue(header: Option<string>)

  /** The state the behaviour's closure keeps for one element. */
  class ProgressiveTextTail {
    const lines: int
    var offset: Offset
    var consoleAnnotator: Option<string>
    var text: string
    var done: bool

    /** The behaviour's set-up: the `lines` and `offset` attributes (the offset clamped at
        zero), no annotator yet, and the element's current text. */
    constructor (lines: int, offsetAttribute: int, initialText: string)
      ensures this.lines == lines
      ensures offset == ByteOffset(if offsetAttribute < 0 then 0 else offsetAttribute)
      ensures consoleAnnotator.None? && text == initialText && !done
    {
      this.lines := lines;
      offset := ByteOffset(if offsetAttribute < 0 then 0 else offsetAttribute);
      consoleAnnotator := None;
      text := initialText;
      done := false;
    }

    /** onComplete: an empty response text leaves the text alone; otherwise the text
        becomes the tail of old + new. Offset and annotator come from the headers in
        every case; the result says whether another fetch is scheduled, and the element
        is marked done when it is not. */
    method OnComplete(rsp: Response) returns (fetchAgain: bool)
      modifies this`offset, this`consoleAnnotator, this`text, this`done
      ensures rsp.responseText == [] ==> text == old(text)
      ensures rsp.responseText != [] ==> text == TailText(old(text) + rsp.responseText, lines)
      ensures offset == HeaderValue(rsp.textSize)
      ensures consoleAnnotator == rsp.consoleAnnotator
      ensures fetchAgain <==> rsp.moreData == Some(MORE_DATA)
      ensures done == (old(done) || !fetchAgain)
    {
      if rsp.responseText != [] {
        text := TailText(text + rsp.responseText, lines);
      }
      offset := HeaderValue(rsp.textSize);
      consoleAnnotator := rsp.consoleAnnotator;
      if rsp.moreData == Some(MORE_DATA) {
        fetchAgain := true;
      } else {
        done := true;
        fetchAgain := false;
      }
    }
  }
}
