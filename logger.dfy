/** The line-buffering stream that replaces the interpreter's `sys.stdout`
    and `sys.stderr` (PythonEntityXLogger).  Text written to it is buffered;
    every complete line is handed to the logging callback without its
    newline, and a forced flush hands over whatever is left. */
module Logging {
  import opened Options
  import opened Strings

  predicate NoNewline(s: string) { '\n' !in s }

  /** The text that a sequence of emitted lines stands for: each line
      followed by the newline that ended it. */
  function Joined(lines: seq<string>): string
    decreases |lines|
  {
    if lines == [] then "" else lines[0] + "\n" + Joined(lines[1..])
  }

  lemma {:induction false} JoinedConcat(a: seq<string>, b: seq<string>)
    ensures Joined(a + b) == Joined(a) + Joined(b)
    decreases |a|
  {
    if a != [] {
      assert (a + b)[1..] == a[1..] + b;
      JoinedConcat(a[1..], b);
    } else {
      assert a + b == b;
    }
  }

  /** The complete lines of `s`, in order, without their newlines. */
  function CompleteLines(s: string): seq<string>
    decreases |s|
  {
    match Find(s, '\n')
    case None => []
    case Some(i) => [s[..i]] + CompleteLines(s[i + 1..])
  }

  /** What follows the last newline of `s`. */
  function Remainder(s: string): string
    decreases |s|
  {
    match Find(s, '\n')
    case None => s
    case Some(i) => Remainder(s[i + 1..])
  }

  lemma JoinedCons(x: string, lines: seq<string>)
    ensures Joined([x] + lines) == x + "\n" + Joined(lines)
  {
    assert ([x] + lines)[1..] == lines;
  }

  /** One step of the split at the first newline, at position `i`. */
  lemma SplitAt(s: string, i: nat)
    requires Find(s, '\n') == Some(i)
    ensures CompleteLines(s) == [s[..i]] + CompleteLines(s[i + 1..])
    ensures Remainder(s) == Remainder(s[i + 1..])
    ensures s == s[..i] + "\n" + s[i + 1..]
  {
    assert s == s[..i] + [s[i]] + s[i + 1..];
  }

  /** Handing over the first line of `line` (which ends at `i`) keeps the
      written text, the pending lines and the remainder. */
  lemma FlushStep(emitted: seq<string>, line: string, i: nat)
    requires Find(line, '\n') == Some(i)
    ensures (emitted + [line[..i]]) + CompleteLines(line[i + 1..]) == emitted + CompleteLines(line)
    ensures Joined(emitted + [line[..i]]) + line[i + 1..] == Joined(emitted) + line
    ensures Remainder(line[i + 1..]) == Remainder(line)
    ensures NoNewline(line[..i])
  {
    var head, rest := line[..i], line[i + 1..];
    SplitAt(line, i);
    assert (emitted + [head]) + CompleteLines(rest) == emitted + ([head] + CompleteLines(rest));
    calc {
      Joined(emitted + [head]) + rest;
      { JoinedConcat(emitted, [head]); JoinedCons(head, []); }
      Joined(emitted) + (head + "\n") + rest;
      Joined(emitted) + line;
    }
    assert NoNewline(head) by {
      assert forall k | 0 <= k < |head| :: head[k] == line[k];
    }
  }

  /** Splitting loses nothing: the lines, each with its newline, followed by
      the remainder, are the text. */
  lemma {:induction false} SplitConserves(s: string)
    ensures Joined(CompleteLines(s)) + Remainder(s) == s
    decreases |s|
  {
    var f := Find(s, '\n');
    if f.Some? {
      var i := f.value;
      SplitAt(s, i);
      SplitConserves(s[i + 1..]);
      JoinedCons(s[..i], CompleteLines(s[i + 1..]));
    }
  }

  lemma {:induction false} LinesHaveNoNewline(s: string)
    ensures forall k | 0 <= k < |CompleteLines(s)| :: NoNewline(CompleteLines(s)[k])
    decreases |s|
  {
    var f := Find(s, '\n');
    if f.Some? {
      var i := f.value;
      SplitAt(s, i);
      LinesHaveNoNewline(s[i + 1..]);
    }
  }

  lemma {:induction false} RemainderHasNoNewline(s: string)
    ensures NoNewline(Remainder(s))
    decreases |s|
  {
    var f := Find(s, '\n');
    if f.Some? {
      SplitAt(s, f.value);
      RemainderHasNoNewline(s[f.value + 1..]);
    }
  }

  /** Text without a newline is all remainder. */
  lemma WithoutNewlineNothingSplits(s: string)
    requires NoNewline(s)
    ensures CompleteLines(s) == [] && Remainder(s) == s
  {
  }

  class Logger {
    /** The buffered text (`line_`). */
    var line: string
    /** The lines handed to the logging callback so far, in order. */
    var emitted: seq<string>
    /** All text written so far. */
    ghost var written: string

    ghost predicate Conserved()
      reads this
    {
      Joined(emitted) + line == written
    }

    ghost predicate EmittedClean()
      reads this
    {
      forall k | 0 <= k < |emitted| :: NoNewline(emitted[k])
    }

    ghost predicate Valid()
      reads this
    {
      Conserved() && EmittedClean() && NoNewline(line)
    }

    constructor ()
      ensures Valid()
      ensures line == "" && emitted == [] && written == ""
    {
      line, emitted, written := "", [], "";
    }

    /** `write`: buffer the text, then hand over every completed line. */
    method Write(text: string)
      requires Valid()
      modifies this
      ensures Valid()
      ensures written == old(written) + text
      ensures emitted == old(emitted) + CompleteLines(old(line) + text)
      ensures line == Remainder(old(line) + text)
    {
      line := line + text;
      written := written + text;
      Flush(false);
    }

    /** `flush(force)`: hand over each complete line; when forced, also a
        non-empty remainder, leaving the buffer empty. */
    method Flush(force: bool)
      requires Conserved() && EmittedClean()
      modifies this
      ensures written == old(written)
      ensures emitted == old(emitted) + CompleteLines(old(line))
                         + (if force && Remainder(old(line)) != "" then [Remainder(old(line))] else [])
      ensures line == if force then "" else Remainder(old(line))
      ensures !force ==> Valid()
    {
      var offset := Find(line, '\n');
      while offset.Some?
        invariant offset == Find(line, '\n')
        invariant Conserved() && EmittedClean()
        invariant written == old(written)
        invariant emitted + CompleteLines(line) == old(emitted) + CompleteLines(old(line))
        invariant Remainder(line) == Remainder(old(line))
        decreases |line|
      {
        var i := offset.value;
        FlushStep(emitted, line, i);
        ghost var before := emitted;
        emitted := emitted + [line[..i]];
        assert forall k | 0 <= k < |before| :: emitted[k] == before[k];
        line := line[i + 1..];
        offset := Find(line, '\n');
      }
      assert NoNewline(line);
      WithoutNewlineNothingSplits(line);
      assert emitted == old(emitted) + CompleteLines(old(line));
      if force && |line| > 0 {
        emitted := emitted + [line];
        line := "";
      }
    }

    /** The destructor: a forced flush.  Conservation then holds with the
        newline the callback's last line did not have. */
    method Close()
      requires Valid()
      modifies this
      ensures line == ""
      ensures emitted == old(emitted) + (if old(line) != "" then [old(line)] else [])
      ensures Joined(emitted) == written + (if old(line) != "" then "\n" else "")
      ensures written == old(written)
    {
      WithoutNewlineNothingSplits(line);
      ghost var before := emitted;
      ghost var rest := line;
      Flush(true);
      JoinedConcat(before, if rest != "" then [rest] else []);
    }
  }
}
