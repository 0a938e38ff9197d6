/** The assistant's prompt loop, as a function of the lines typed: which of them end the
    session, which are skipped and which are run as queries. */
module Console {
  import opened Text

  /** What a line typed at the prompt asks for. */
  datatype Command = Quit | Skip | Ask(query: string)

  /** A line of whitespace only: what `not line.strip()` tests (`StripEmptyIffBlank`). */
  predicate Blank(line: string) {
    forall i :: 0 <= i < |line| ==> IsSpace(line[i])
  }

  /** `exit` or `quit` in any letter case ends the session; a line that is only whitespace is
      skipped; anything else is a query, passed on exactly as typed. (Lower-casing ASCII letters
      decides this exactly: no other character lower-cases to a letter of `exit` or `quit`.) */
  function Classify(line: string): Command {
    if LowerAscii(line) == "exit" || LowerAscii(line) == "quit" then Quit
    else if Blank(line) then Skip
    else Ask(line)
  }

  /** The three cases: the lower-cased line is `exit` or `quit`; the line strips to nothing;
      anything else is asked as typed. */
  lemma ClassifySpec(line: string)
    ensures Classify(line) == Quit <==> LowerAscii(line) in ["exit", "quit"]
    ensures Classify(line) == Skip <==> !(LowerAscii(line) in ["exit", "quit"]) && Strip(line) == []
    ensures Classify(line).Ask? <==> !(LowerAscii(line) in ["exit", "quit"]) && Strip(line) != []
    ensures Classify(line).Ask? ==> Classify(line).query == line
  {
    StripEmptyIffBlank(line);
    assert LowerAscii(line) in ["exit", "quit"] <==> LowerAscii(line) == "exit" || LowerAscii(line) == "quit";
  }

  /** The queries a session runs, in order, and whether it was ended by a command (rather than
      by running out of input). */
  datatype Transcript = Transcript(queries: seq<string>, quit: bool)

  /** `Classify` applied to every line, in order. */
  function Commands(lines: seq<string>): (r: seq<Command>)
    ensures |r| == |lines|
  {
    seq(|lines|, i requires 0 <= i < |lines| => Classify(lines[i]))
  }

  /** The commands from line `i` on: the command of line `i`, then those of the lines after it. */
  lemma CommandsFrom(lines: seq<string>, i: int)
    requires 0 <= i < |lines|
    ensures Commands(lines)[i..] == [Classify(lines[i])] + Commands(lines)[i + 1..]
  {
  }

  /** Classifying lines one at a time is classifying each part of them. */
  lemma CommandsAppend(a: seq<string>, b: seq<string>)
    ensures Commands(a + b) == Commands(a) + Commands(b)
  {
    assert forall i :: 0 <= i < |a + b| ==> Commands(a + b)[i] == (Commands(a) + Commands(b))[i] by {
      forall i | 0 <= i < |a + b|
        ensures Commands(a + b)[i] == (Commands(a) + Commands(b))[i]
      {
        if i < |a| {
          assert (a + b)[i] == a[i];
        } else {
          assert (a + b)[i] == b[i - |a|];
        }
      }
    }
  }

  /** The session the loop runs over the commands typed: it stops at an exit command, skips
      blank lines and runs every other line as a query. */
  function Session(commands: seq<Command>): Transcript
    decreases |commands|
  {
    if commands == [] then Transcript([], false)
    else
      match commands[0]
      case Quit => Transcript([], true)
      case Skip => Session(commands[1..])
      case Ask(q) =>
        var rest := Session(commands[1..]);
        Transcript([q] + rest.queries, rest.quit)
  }

  /** Every query a session runs was asked by one of its commands, and there are no more
      queries than commands. */
  lemma {:induction false} SessionRunsAskedQueries(commands: seq<Command>)
    ensures |Session(commands).queries| <= |commands|
    ensures forall q :: q in Session(commands).queries ==> Ask(q) in commands
    decreases |commands|
  {
    if commands != [] {
      SessionRunsAskedQueries(commands[1..]);
      assert forall c :: c in commands[1..] ==> c in commands;
    }
  }

  /** Every query a session runs is a line that was typed, and is neither blank nor a command. */
  lemma SessionRunsTypedQueries(lines: seq<string>)
    ensures |Session(Commands(lines)).queries| <= |lines|
    ensures forall q :: q in Session(Commands(lines)).queries ==> q in lines && Classify(q) == Ask(q)
  {
    SessionRunsAskedQueries(Commands(lines));
    forall q | q in Session(Commands(lines)).queries
      ensures q in lines && Classify(q) == Ask(q)
    {
      var i :| 0 <= i < |lines| && Commands(lines)[i] == Ask(q);
      assert Classify(lines[i]) == Ask(q);
      assert lines[i] == q;
    }
  }

  /** The session over commands that start with `c`, in terms of the session over the rest. */
  lemma SessionStep(c: Command, rest: seq<Command>)
    ensures Session([c] + rest) ==
      match c
      case Quit => Transcript([], true)
      case Skip => Session(rest)
      case Ask(q) => Transcript([q] + Session(rest).queries, Session(rest).quit)
  {
    assert ([c] + rest)[0] == c && ([c] + rest)[1..] == rest;
  }

  /** A blank line changes nothing: the session is the same without it. */
  lemma {:induction false} SkipIgnored(before: seq<Command>, after: seq<Command>)
    ensures Session(before + [Skip] + after) == Session(before + after)
    decreases |before|
  {
    if before == [] {
      assert before + [Skip] + after == [Skip] + after;
      assert before + after == after;
      SessionStep(Skip, after);
    } else {
      SkipIgnored(before[1..], after);
      assert before + [Skip] + after == [before[0]] + (before[1..] + [Skip] + after);
      assert before + after == [before[0]] + (before[1..] + after);
      SessionStep(before[0], before[1..] + [Skip] + after);
      SessionStep(before[0], before[1..] + after);
    }
  }

  /** A line that is only whitespace, typed anywhere, changes nothing about the session. */
  lemma BlankLineIgnored(before: seq<string>, line: string, after: seq<string>)
    requires Classify(line) == Skip
    ensures Session(Commands(before + [line] + after)) == Session(Commands(before + after))
  {
    CommandsAppend(before + [line], after);
    CommandsAppend(before, [line]);
    CommandsAppend(before, after);
    assert Commands([line]) == [Skip];
    SkipIgnored(Commands(before), Commands(after));
  }

  /** An exit command ends the session: what is typed after it is never run. */
  lemma {:induction false} QuitEnds(before: seq<Command>, after: seq<Command>)
    requires Quit !in before
    ensures Session(before + [Quit] + after) == Transcript(Session(before).queries, true)
    decreases |before|
  {
    if before == [] {
      assert before + [Quit] + after == [Quit] + after;
      SessionStep(Quit, after);
    } else {
      assert before[0] != Quit && Quit !in before[1..];
      QuitEnds(before[1..], after);
      assert before + [Quit] + after == [before[0]] + (before[1..] + [Quit] + after);
      assert before == [before[0]] + before[1..];
      SessionStep(before[0], before[1..] + [Quit] + after);
      SessionStep(before[0], before[1..]);
    }
  }

  /** The first `exit` or `quit` typed ends the session with the queries typed before it;
      the lines after it are never read. */
  lemma QuitEndsSession(before: seq<string>, line: string, after: seq<string>)
    requires Classify(line) == Quit
    requires forall i :: 0 <= i < |before| ==> Classify(before[i]) != Quit
    ensures Session(Commands(before + [line] + after)) == Transcript(Session(Commands(before)).queries, true)
  {
    CommandsAppend(before + [line], after);
    CommandsAppend(before, [line]);
    assert Commands([line]) == [Quit];
    QuitEnds(Commands(before), Commands(after));
  }
}
