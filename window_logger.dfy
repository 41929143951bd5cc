/**
 * WindowLogger (UI/Tabs/Processes): the log shown in the Processes tab. Write queues a line and
 * schedules one delayed UpdateText. UpdateText drops the oldest lines down to 50 and shows the
 * rest as Text.
 *
 * The lock, Task.Run and the 30 ms delay are not modelled. A scheduled update is counted in
 * pendingUpdates, and a call of UpdateText runs one of them.
 */
module WindowLogger {

  /** The most lines UpdateText keeps. */
  const MaxLines: nat := 50

  /** string.Join("", lines). */
  function Joined(lines: seq<string>): string
  {
    if lines == [] then "" else lines[0] + Joined(lines[1..])
  }

  /** Joining two runs of lines joins their texts. */
  lemma {:induction false} JoinedAppend(a: seq<string>, b: seq<string>)
    ensures Joined(a + b) == Joined(a) + Joined(b)
    decreases |a|
  {
    if a != [] {
      assert (a + b)[0] == a[0] && (a + b)[1..] == a[1..] + b;
      JoinedAppend(a[1..], b);
    } else {
      assert a + b == b;
    }
  }

  /** The newest n lines, in arrival order. */
  function Newest(lines: seq<string>, n: nat): (r: seq<string>)
    ensures |r| == if |lines| <= n then |lines| else n
    ensures r == lines[|lines| - |r|..]
  {
    if |lines| <= n then lines else lines[|lines| - n..]
  }

  /** The line Write queues for a message. */
  function Line(message: string): string
  {
    message + "\n"
  }

  class Logger {
    var text: string
    var logLines: seq<string>
    var isUpdating: bool
    /** UpdateText runs scheduled and not yet run. */
    var pendingUpdates: nat
    /** Every line written so far, in order. */
    ghost var written: seq<string>

    /**
     * The queue holds the newest lines written, in order. An update is pending exactly while
     * isUpdating is set, and at most one is pending.
     */
    ghost predicate Valid()
      reads this
    {
      && |logLines| <= |written|
      && logLines == written[|written| - |logLines|..]
      && pendingUpdates <= 1
      && (pendingUpdates == 1 <==> isUpdating)
    }

    constructor ()
      ensures Valid()
      ensures text == "" && logLines == [] && !isUpdating && pendingUpdates == 0 && written == []
    {
      text := "";
      logLines := [];
      isUpdating := false;
      pendingUpdates := 0;
      written := [];
    }

    /** WriteImp: queue the line and schedule an update unless one is pending. */
    method WriteImp(message: string)
      requires Valid()
      modifies this
      ensures Valid()
      ensures logLines == old(logLines) + [Line(message)] && written == old(written) + [Line(message)]
      ensures isUpdating
      ensures pendingUpdates == (if old(isUpdating) then old(pendingUpdates) else old(pendingUpdates) + 1)
      ensures text == old(text)
    {
      logLines := logLines + [Line(message)];
      written := written + [Line(message)];
      if !isUpdating {
        isUpdating := true;
        pendingUpdates := pendingUpdates + 1;
      }
    }

    /** UpdateText: drop the oldest lines down to 50, show the rest, and clear isUpdating. */
    method UpdateText()
      requires Valid()
      modifies this
      ensures Valid()
      ensures logLines == Newest(old(logLines), MaxLines)
      ensures text == Joined(logLines)
      ensures !isUpdating && pendingUpdates == 0 && written == old(written)
      ensures |logLines| <= MaxLines && logLines == written[|written| - |logLines|..]
    {
      while |logLines| > MaxLines
        invariant logLines == old(logLines)[|old(logLines)| - |logLines|..]
        invariant |logLines| >= MaxLines || logLines == old(logLines)
        invariant written == old(written) && isUpdating == old(isUpdating) && pendingUpdates == old(pendingUpdates)
        decreases |logLines|
      {
        logLines := logLines[1..];
      }
      text := Joined(logLines);
      isUpdating := false;
      pendingUpdates := 0;
    }
  }

  /**
   * While fewer than 50 lines are queued, a write followed by an update shows the old text with
   * the message and a newline appended.
   */
  lemma WriteThenUpdateAppends(lines: seq<string>, message: string)
    requires |lines| < MaxLines
    ensures Joined(Newest(lines + [Line(message)], MaxLines)) == Joined(lines) + message + "\n"
  {
    var queued := lines + [Line(message)];
    assert Newest(queued, MaxLines) == queued;
    JoinedAppend(lines, [Line(message)]);
    JoinedOne(Line(message));
    AppendAssociates(Joined(lines), message, "\n");
  }

  /** A single line joins to itself. */
  lemma JoinedOne(line: string)
    ensures Joined([line]) == line
  {
    assert [line][1..] == [];
  }

  /** Appending to a text is associative. */
  lemma AppendAssociates(a: string, b: string, c: string)
    ensures a + (b + c) == a + b + c
  {
  }
}
