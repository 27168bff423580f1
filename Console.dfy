/** The interactive loop of the program: it reads one line per turn and stops
    at the first line that reads "exit" in any letter case; every line before
    it is a question for the agent. The lines typed are given as a sequence. */
module Console {
  import opened Text

  /** The exit test: the line, lowercased, is "exit". */
  predicate IsExit(line: string)
  {
    Lower(line) == "exit"
  }

  /** The exit test accepts exactly the sixteen case variants of "exit":
      no surrounding whitespace, no other characters. */
  lemma ExitCaseVariants(line: string)
    ensures IsExit(line) <==>
            |line| == 4 && line[0] in "eE" && line[1] in "xX" && line[2] in "iI" && line[3] in "tT"
  {
  }

  /** The loop of `main`: the questions handed to the agent, in order, and
      whether the loop ended on an exit line (otherwise the input ran out). */
  method Session(lines: seq<string>) returns (questions: seq<string>, exited: bool)
    ensures |questions| <= |lines| && questions == lines[..|questions|]
    ensures forall k :: 0 <= k < |questions| ==> !IsExit(questions[k])
    ensures exited <==> |questions| < |lines|
    ensures exited ==> IsExit(lines[|questions|])
  {
    questions := [];
    exited := false;
    var i := 0;
    while i < |lines|
      invariant 0 <= i <= |lines|
      invariant questions == lines[..i]
      invariant forall k :: 0 <= k < i ==> !IsExit(lines[k])
    {
      if IsExit(lines[i]) {
        exited := true;
        break;
      }
      questions := questions + [lines[i]];
      i := i + 1;
    }
  }
}
