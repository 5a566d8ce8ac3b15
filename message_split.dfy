/** `splitMessage` of src/services/whatsappService.js: how a reply longer
    than `maxMessageLength` is cut into WhatsApp messages. A run of the
    line loop is a left fold of `Step` over the lines; a throw (the
    regular expression of an over-long line failing) is `None`. */
module MessageSplit {
  import opened Wrappers
  import opened JsString
  import opened Seqs

  /** The loop's two variables: the messages pushed so far and the text
      gathered for the next one. */
  datatype Chunking = Chunking(messages: seq<string>, current: string)

  /** Characters the regular-expression atom `.` matches. */
  predicate NotTerminator(c: char) {
    !IsLineTerminator(c)
  }

  /** The length of the greedy match of `.{1,k}` at the start of `s`. */
  function RunLength(s: string, k: nat): (n: nat)
    ensures n <= |s| && n <= k
    ensures forall j :: 0 <= j < n ==> NotTerminator(s[j])
    ensures n < |s| && n < k ==> IsLineTerminator(s[n])
  {
    if s == [] || k == 0 || IsLineTerminator(s[0]) then 0 else 1 + RunLength(s[1..], k - 1)
  }

  /** The matches of `s.match(/.{1,k}/g)`, in order: the line terminators
      are skipped and every maximal run of other characters is cut into
      pieces of `k`, the last piece of a run holding the rest. */
  function Pieces(s: string, k: nat): seq<string>
    requires k >= 1
    decreases |s|
  {
    if s == [] then []
    else if IsLineTerminator(s[0]) then Pieces(s[1..], k)
    else [s[..RunLength(s, k)]] + Pieces(s[RunLength(s, k)..], k)
  }

  /** Strings written one after the other. */
  function Concat(parts: seq<string>): string {
    if parts == [] then [] else parts[0] + Concat(parts[1..])
  }

  /** Splitting a line longer than `maxLen` with `.{1,maxLen - 50}`. A
      line with no match leaves `match` returning `null`, which cannot be
      spread, and throws. A limit of 50 or less is modelled as a throw
      (`{1,0}` is a syntax error; below that see README, Left out). */
  function HardSplit(line: string, maxLen: nat): (r: Option<seq<string>>)
    ensures r.Some? <==> maxLen > 50 && Pieces(line, maxLen - 50) != []
  {
    if maxLen <= 50 then None
    else if Pieces(line, maxLen - 50) == [] then None
    else Some(Pieces(line, maxLen - 50))
  }

  /** The messages once a non-empty gathered text has been pushed, trimmed. */
  function Flush(st: Chunking): seq<string> {
    if st.current != "" then st.messages + [Trim(st.current)] else st.messages
  }

  /** One iteration of the line loop. */
  function Step(st: Chunking, line: string, maxLen: nat): Option<Chunking> {
    if |st.current + line + "\n"| > maxLen then
      if |line| > maxLen then
        match HardSplit(line, maxLen)
        case None => None
        case Some(pieces) => Some(Chunking(Flush(st) + pieces, ""))
      else Some(Chunking(Flush(st), line + "\n"))
    else Some(Chunking(st.messages, st.current + line + "\n"))
  }

  /** The line loop from state `st` over `lines`. */
  function Fold(st: Chunking, lines: seq<string>, maxLen: nat): Option<Chunking>
    decreases |lines|
  {
    if lines == [] then Some(st)
    else match Step(st, lines[0], maxLen)
      case None => None
      case Some(next) => Fold(next, lines[1..], maxLen)
  }

  /** After the loop: the gathered text is pushed, trimmed, unless it is
      only white space. */
  function Finish(st: Chunking): seq<string> {
    if Trim(st.current) != "" then st.messages + [Trim(st.current)] else st.messages
  }

  /** `splitMessage(message)` with `maxMessageLength` as `maxLen`. */
  function SplitMessage(message: string, maxLen: nat): Option<seq<string>> {
    if |message| <= maxLen then Some([message])
    else match Fold(Chunking([], ""), Split(message, '\n'), maxLen)
      case None => None
      case Some(st) => Some(Finish(st))
  }

  // ---------------------------------------------------------------------
  // The regular-expression pieces

  lemma ConcatCons(head: string, tail: seq<string>)
    ensures Concat([head] + tail) == head + Concat(tail)
  {
    assert ([head] + tail)[1..] == tail;
  }

  /** Every piece is 1 to `k` characters long and holds no line terminator. */
  lemma {:induction false} PieceBounded(s: string, k: nat, i: nat)
    requires k >= 1 && i < |Pieces(s, k)|
    ensures 1 <= |Pieces(s, k)[i]| <= k
    ensures forall j :: 0 <= j < |Pieces(s, k)[i]| ==> NotTerminator(Pieces(s, k)[i][j])
    decreases |s|
  {
    if IsLineTerminator(s[0]) {
      PieceBounded(s[1..], k, i);
    } else if i > 0 {
      PieceBounded(s[RunLength(s, k)..], k, i - 1);
    }
  }

  /** The pieces put back together are the line without its line
      terminators: nothing else is lost, and the order is kept. */
  lemma {:induction false} PiecesConcat(s: string, k: nat)
    requires k >= 1
    ensures Concat(Pieces(s, k)) == Filter(s, NotTerminator)
    decreases |s|
  {
    if s == [] {
    } else if IsLineTerminator(s[0]) {
      PiecesConcat(s[1..], k);
      assert Filter(s, NotTerminator) == Filter(s[1..], NotTerminator);
    } else {
      var n := RunLength(s, k);
      PiecesConcat(s[n..], k);
      ConcatCons(s[..n], Pieces(s[n..], k));
      assert s == s[..n] + s[n..];
      FilterAppend(s[..n], s[n..], NotTerminator);
      FilterAll(s[..n], NotTerminator);
    }
  }

  lemma MulSucc(p: int, k: int)
    ensures (p + 1) * k == p * k + k
  {
  }

  /** ceil(n / k) for a positive `n`: the fewest blocks of `k` that hold `n`. */
  function CeilDiv(n: nat, k: nat): (r: nat)
    requires n >= 1 && k >= 1
    ensures r >= 1 && (r - 1) * k < n <= r * k
    decreases n
  {
    if n <= k then 1
    else
      MulSucc(CeilDiv(n - k, k) - 1, k);
      MulSucc(CeilDiv(n - k, k), k);
      1 + CeilDiv(n - k, k)
  }

  /** A non-empty line without line terminators is cut into ceil(|s| / k)
      pieces. */
  lemma {:induction false} PiecesCount(s: string, k: nat)
    requires k >= 1 && s != []
    requires forall j :: 0 <= j < |s| ==> NotTerminator(s[j])
    ensures |Pieces(s, k)| == CeilDiv(|s|, k)
    decreases |s|
  {
    var n := RunLength(s, k);
    if |s| <= k {
      assert n == |s|;
      assert Pieces(s[n..], k) == [];
    } else {
      assert n == k;
      PiecesCount(s[n..], k);
    }
  }

  /** A line without line terminators comes back whole. */
  lemma PiecesLossless(s: string, k: nat)
    requires k >= 1
    requires forall j :: 0 <= j < |s| ==> NotTerminator(s[j])
    ensures Concat(Pieces(s, k)) == s
  {
    PiecesConcat(s, k);
    FilterAll(s, NotTerminator);
  }

  // ---------------------------------------------------------------------
  // Every message fits

  /** What the loop keeps: pushed messages fit, and the gathered text is
      empty or ends in the newline that `trim` will drop, at most one
      character over the limit. */
  ghost predicate Fits(st: Chunking, maxLen: nat) {
    && (forall i :: 0 <= i < |st.messages| ==> |st.messages[i]| <= maxLen)
    && (st.current == "" || (|st.current| <= maxLen + 1 && st.current[|st.current| - 1] == '\n'))
  }

  lemma TrimmedFits(current: string, maxLen: nat)
    requires current != "" && |current| <= maxLen + 1 && current[|current| - 1] == '\n'
    ensures |Trim(current)| <= maxLen
  {
    TrimDropsTrailing(current);
  }

  lemma FlushFits(st: Chunking, maxLen: nat)
    requires Fits(st, maxLen)
    ensures forall i :: 0 <= i < |Flush(st)| ==> |Flush(st)[i]| <= maxLen
  {
    if st.current != "" {
      TrimmedFits(st.current, maxLen);
    }
  }

  lemma HardSplitFits(line: string, maxLen: nat)
    requires HardSplit(line, maxLen).Some?
    ensures forall i :: 0 <= i < |HardSplit(line, maxLen).value| ==> |HardSplit(line, maxLen).value[i]| < maxLen
  {
    forall i | 0 <= i < |HardSplit(line, maxLen).value|
      ensures |HardSplit(line, maxLen).value[i]| < maxLen
    {
      PieceBounded(line, maxLen - 50, i);
    }
  }

  lemma StepFits(st: Chunking, line: string, maxLen: nat)
    requires Fits(st, maxLen)
    requires Step(st, line, maxLen).Some?
    ensures Fits(Step(st, line, maxLen).value, maxLen)
  {
    if |st.current + line + "\n"| > maxLen {
      FlushFits(st, maxLen);
      if |line| > maxLen {
        HardSplitFits(line, maxLen);
      }
    }
  }

  lemma {:induction false} FoldFits(st: Chunking, lines: seq<string>, maxLen: nat)
    requires Fits(st, maxLen)
    requires Fold(st, lines, maxLen).Some?
    ensures Fits(Fold(st, lines, maxLen).value, maxLen)
    decreases |lines|
  {
    if lines != [] {
      StepFits(st, lines[0], maxLen);
      FoldFits(Step(st, lines[0], maxLen).value, lines[1..], maxLen);
    }
  }

  /** Whenever `splitMessage` returns, every message it returns is at most
      `maxLen` characters long. */
  lemma ChunksFit(message: string, maxLen: nat, i: nat)
    requires SplitMessage(message, maxLen).Some?
    requires i < |SplitMessage(message, maxLen).value|
    ensures |SplitMessage(message, maxLen).value[i]| <= maxLen
  {
    if |message| > maxLen {
      var st := Fold(Chunking([], ""), Split(message, '\n'), maxLen).value;
      FoldFits(Chunking([], ""), Split(message, '\n'), maxLen);
      if Trim(st.current) != "" {
        TrimmedFits(st.current, maxLen);
      }
    }
  }

  // ---------------------------------------------------------------------
  // What the split keeps and what it loses

  /** A single over-long line without line terminators becomes its
      `maxLen - 50` pieces, which put together give the line back. */
  lemma LongLineSplit(message: string, maxLen: nat)
    requires maxLen > 50 && |message| > maxLen
    requires forall j :: 0 <= j < |message| ==> NotTerminator(message[j])
    ensures SplitMessage(message, maxLen) == Some(Pieces(message, maxLen - 50))
    ensures Concat(Pieces(message, maxLen - 50)) == message
    ensures |Pieces(message, maxLen - 50)| == CeilDiv(|message|, maxLen - 50)
  {
    SplitNoSeparator(message, '\n');
    PiecesLossless(message, maxLen - 50);
    PiecesCount(message, maxLen - 50);
    assert Pieces(message, maxLen - 50) != [];
    var st := Chunking(Pieces(message, maxLen - 50), "");
    assert Flush(Chunking([], "")) + Pieces(message, maxLen - 50) == st.messages;
    assert Step(Chunking([], ""), message, maxLen) == Some(st);
    assert Fold(Chunking([], ""), [message], maxLen) == Fold(st, [], maxLen);
  }

  /** With the default limit of 4000, a 9000-character line goes out as
      three messages. */
  lemma NineThousandIsThreeMessages(message: string)
    requires |message| == 9000
    requires forall j :: 0 <= j < |message| ==> NotTerminator(message[j])
    ensures SplitMessage(message, 4000).Some?
    ensures |SplitMessage(message, 4000).value| == 3
  {
    LongLineSplit(message, 4000);
    assert CeilDiv(9000, 3950) == 1 + CeilDiv(5050, 3950) == 2 + CeilDiv(1100, 3950);
  }

  lemma StepGathers(st: Chunking, line: string, maxLen: nat)
    requires |st.current + line + "\n"| <= maxLen
    ensures Step(st, line, maxLen) == Some(Chunking(st.messages, st.current + line + "\n"))
  {
  }

  lemma StepStartsAfresh(st: Chunking, line: string, maxLen: nat)
    requires |st.current + line + "\n"| > maxLen && |line| <= maxLen
    ensures Step(st, line, maxLen) == Some(Chunking(Flush(st), line + "\n"))
  {
  }

  lemma FinishTrims(messages: seq<string>, line: string)
    requires line != [] && !IsWhitespace(line[0]) && !IsWhitespace(line[|line| - 1])
    ensures Finish(Chunking(messages, line + "\n")) == messages + [line]
  {
    TrimNewline(line);
  }

  /** `splitMessage` once the loop has ended on a gathered line. */
  lemma SplitMessageEndsOn(message: string, maxLen: nat, messages: seq<string>, line: string)
    requires |message| > maxLen
    requires line != [] && !IsWhitespace(line[0]) && !IsWhitespace(line[|line| - 1])
    requires Fold(Chunking([], ""), Split(message, '\n'), maxLen) == Some(Chunking(messages, line + "\n"))
    ensures SplitMessage(message, maxLen) == Some(messages + [line])
  {
    FinishTrims(messages, line);
  }

  /** The split is not lossless: the newlines between chunks and the
      indentation at a chunk's start are trimmed away. With a limit of 3,
      "  a\nb" goes out as "a" and "b", and no way of putting those back
      together recovers the two leading spaces. */
  lemma IndentationLost()
    ensures SplitMessage("  a\nb", 3) == Some(["a", "b"])
  {
    IndentedLines();
    IndentedFold();
    assert "b" + "\n" == "b\n";
    SplitMessageEndsOn("  a\nb", 3, ["a"], "b");
    assert ["a"] + ["b"] == ["a", "b"];
  }

  lemma IndentedLines()
    ensures Split("  a\nb", '\n') == ["  a", "b"]
  {
    assert Join(["  a", "b"], '\n') == "  a\nb";
    SplitJoin(["  a", "b"], '\n');
  }

  lemma IndentedFold()
    ensures Fold(Chunking([], ""), ["  a", "b"], 3) == Some(Chunking(["a"], "b\n"))
  {
    var st1 := Chunking([], "  a\n");
    IndentedFirstStep();
    IndentedSecondStep();
    assert Fold(Chunking([], ""), ["  a", "b"], 3) == Fold(st1, ["b"], 3);
    assert Fold(st1, ["b"], 3) == Fold(Chunking(["a"], "b\n"), [], 3);
  }

  lemma IndentedFirstStep()
    ensures Step(Chunking([], ""), "  a", 3) == Some(Chunking([], "  a\n"))
  {
    StepStartsAfresh(Chunking([], ""), "  a", 3);
    assert Flush(Chunking([], "")) == [] && "  a" + "\n" == "  a\n";
  }

  lemma IndentedSecondStep()
    ensures Step(Chunking([], "  a\n"), "b", 3) == Some(Chunking(["a"], "b\n"))
  {
    StepStartsAfresh(Chunking([], "  a\n"), "b", 3);
    IndentedTrim();
    assert Flush(Chunking([], "  a\n")) == ["a"] && "b" + "\n" == "b\n";
  }

  lemma IndentedTrim()
    ensures Trim("  a\n") == "a"
  {
    var line := "a\n";
    assert line == "a" + "\n";
    TrimNewline("a");
    TrimStartNoop(line);
    var once := " " + line;
    assert once[1..] == line;
    assert TrimStart(once) == TrimStart(line);
    var twice := " " + once;
    assert twice[1..] == once;
    assert TrimStart(twice) == TrimStart(once);
    assert twice == "  a\n";
  }

  /** A gathered text of blank lines is pushed when it is non-empty but
      trims to nothing, so an empty message can go out: with a limit of 3,
      "\n\nabc" becomes "" and "abc". */
  lemma BlankLinesGiveEmptyMessage()
    ensures SplitMessage("\n\nabc", 3) == Some(["", "abc"])
  {
    BlankLines();
    BlankFold();
    assert "abc" + "\n" == "abc\n";
    SplitMessageEndsOn("\n\nabc", 3, [""], "abc");
    assert [""] + ["abc"] == ["", "abc"];
  }

  lemma BlankLines()
    ensures Split("\n\nabc", '\n') == ["", "", "abc"]
  {
    assert Join(["", "", "abc"], '\n') == "\n\nabc";
    SplitJoin(["", "", "abc"], '\n');
  }

  lemma BlankFold()
    ensures Fold(Chunking([], ""), ["", "", "abc"], 3) == Some(Chunking([""], "abc\n"))
  {
    var st1 := Chunking([], "\n");
    var st2 := Chunking([], "\n\n");
    var st3 := Chunking([""], "abc\n");
    StepGathers(Chunking([], ""), "", 3);
    assert "" + "" + "\n" == "\n";
    StepGathers(st1, "", 3);
    assert "\n" + "" + "\n" == "\n\n";
    BlankThirdStep();
    assert Fold(Chunking([], ""), ["", "", "abc"], 3) == Fold(st1, ["", "abc"], 3);
    assert Fold(st1, ["", "abc"], 3) == Fold(st2, ["abc"], 3);
    assert Fold(st2, ["abc"], 3) == Fold(st3, [], 3);
  }

  lemma BlankThirdStep()
    ensures Step(Chunking([], "\n\n"), "abc", 3) == Some(Chunking([""], "abc\n"))
  {
    StepStartsAfresh(Chunking([], "\n\n"), "abc", 3);
    assert "\n\n"[1..][1..] == "";
    assert Trim("\n\n") == "";
    assert Flush(Chunking([], "\n\n")) == [""] && "abc" + "\n" == "abc\n";
  }
}
