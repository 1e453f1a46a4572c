/** The task-list parsing chain used by both task views:
    `response.split("\n").map(task => task.trim()).filter(task => task !== "")`. */
module TaskLines {
  import opened Text

  /** `.map(task => task.trim())` */
  function TrimAll(lines: seq<string>): (r: seq<string>)
    ensures |r| == |lines|
    ensures forall i | 0 <= i < |r| :: r[i] == Trim(lines[i])
  {
    if lines == [] then [] else [Trim(lines[0])] + TrimAll(lines[1..])
  }

  /** `.filter(task => task !== "")` */
  function DropEmpty(xs: seq<string>): (r: seq<string>)
    ensures |r| <= |xs|
    ensures forall i | 0 <= i < |r| :: r[i] != ""
    ensures forall x | x in r :: x in xs
    ensures forall x | x in xs && x != "" :: x in r
  {
    if xs == [] then []
    else if xs[0] == "" then DropEmpty(xs[1..])
    else [xs[0]] + DropEmpty(xs[1..])
  }

  /** The whole chain: the trimmed, non-empty lines of a response. */
  function ParseTaskList(response: string): (r: seq<string>)
    ensures forall i | 0 <= i < |r| :: r[i] != "" && Trim(r[i]) == r[i] && '\n' !in r[i]
  {
    var lines := Split(response, '\n');
    TrimmedLines(lines);
    DropEmpty(TrimAll(lines))
  }

  /** Each trimmed line is trimmed and newline-free. */
  lemma TrimmedLines(lines: seq<string>)
    requires forall i | 0 <= i < |lines| :: '\n' !in lines[i]
    ensures forall x | x in TrimAll(lines) :: Trim(x) == x && '\n' !in x
  {
    forall x | x in TrimAll(lines) ensures Trim(x) == x && '\n' !in x {
      var k :| 0 <= k < |lines| && x == TrimAll(lines)[k];
      TrimIdempotent(lines[k]);
    }
  }

  lemma {:induction false} TrimAllConcat(a: seq<string>, b: seq<string>)
    ensures TrimAll(a + b) == TrimAll(a) + TrimAll(b)
  {
    if a == [] {
      assert a + b == b;
    } else {
      assert (a + b)[0] == a[0];
      assert (a + b)[1..] == a[1..] + b;
      TrimAllConcat(a[1..], b);
    }
  }

  lemma {:induction false} DropEmptyConcat(a: seq<string>, b: seq<string>)
    ensures DropEmpty(a + b) == DropEmpty(a) + DropEmpty(b)
  {
    if a == [] {
      assert a + b == b;
    } else {
      assert (a + b)[0] == a[0];
      assert (a + b)[1..] == a[1..] + b;
      DropEmptyConcat(a[1..], b);
    }
  }

  /** One line without a newline yields its trimmed text, or nothing when blank. */
  lemma ParseOneLine(line: string)
    requires '\n' !in line
    ensures ParseTaskList(line) == if IsBlank(line) then [] else [Trim(line)]
  {
    SplitNoSeparator(line, '\n');
    BlankIsTrimEmpty(line);
    assert TrimAll([line]) == [Trim(line)];
  }

  /** Order is kept: the tasks of `a + "\n" + b` are the tasks of `a`
      followed by the tasks of `b`. */
  lemma ParseConcat(a: string, b: string)
    ensures ParseTaskList(a + "\n" + b) == ParseTaskList(a) + ParseTaskList(b)
  {
    var la, lb := Split(a, '\n'), Split(b, '\n');
    assert a + "\n" + b == a + ['\n'] + b;
    SplitConcat(a, b, '\n');
    TrimAllConcat(la, lb);
    DropEmptyConcat(TrimAll(la), TrimAll(lb));
  }

  /** Tasks joined back with newlines parse to the same tasks. */
  lemma ParseJoin(tasks: seq<string>)
    requires forall i | 0 <= i < |tasks| :: tasks[i] != "" && Trim(tasks[i]) == tasks[i] && '\n' !in tasks[i]
    ensures ParseTaskList(Join(tasks, '\n')) == tasks
  {
    if tasks == [] {
      assert TrimAll([""]) == [""];
    } else {
      SplitJoin(tasks, '\n');
      TrimAllTrimmed(tasks);
      DropEmptyAllNonEmpty(tasks);
    }
  }

  lemma {:induction false} TrimAllTrimmed(xs: seq<string>)
    requires forall i | 0 <= i < |xs| :: Trim(xs[i]) == xs[i]
    ensures TrimAll(xs) == xs
  {
    if xs != [] {
      TrimAllTrimmed(xs[1..]);
    }
  }

  lemma {:induction false} DropEmptyAllNonEmpty(xs: seq<string>)
    requires forall i | 0 <= i < |xs| :: xs[i] != ""
    ensures DropEmpty(xs) == xs
  {
    if xs != [] {
      DropEmptyAllNonEmpty(xs[1..]);
    }
  }

  /** Parsing is idempotent: re-parsing the newline-joined task list changes nothing. */
  lemma ParseIdempotent(response: string)
    ensures ParseTaskList(Join(ParseTaskList(response), '\n')) == ParseTaskList(response)
  {
    ParseJoin(ParseTaskList(response));
  }
}
