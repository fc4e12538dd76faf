/** The kernel's process status line, from which a process incarnation's start epoch and state are
read: pid (comm) state ..., where comm is arbitrary and the start time is the twentieth field
after it. */
module StatLine {
  import opened Options
  import opened Text
  import opened Decimals

  datatype Result<T> = Ok(value: T) | Malformed | TooFewFields | BadNumber

  /** strings.LastIndexByte: -1 if c is not in s. */
  function LastIndex(s: string, c: char): (i: int)
    ensures -1 <= i < |s|
    ensures i >= 0 ==> s[i] == c
    ensures forall j | i < j < |s| :: s[j] != c
  {
    if s == "" then -1
    else if s[|s| - 1] == c then |s| - 1
    else LastIndex(s[..|s| - 1], c)
  }

  /** The length of the leading run of characters that are not spaces. */
  function WordLength(s: string): (n: nat)
    ensures n <= |s|
    ensures forall i | 0 <= i < n :: !IsSpace(s[i])
    ensures n < |s| ==> IsSpace(s[n])
  {
    if s == "" || IsSpace(s[0]) then 0 else 1 + WordLength(s[1..])
  }

  /** strings.Fields: the words between runs of spaces. */
  function Fields(s: string): seq<string> {
    if s == "" then []
    else if IsSpace(s[0]) then Fields(s[1..])
    else
      var n := WordLength(s);
      assert n > 0;
      [s[..n]] + Fields(s[n..])
  }

  const STATE := 0
  const START_TIME := 19

  /** procsig.parseStartEpoch. */
  function ParseStartEpoch(stat: string): Result<nat> {
    var end := LastIndex(stat, ')');
    if end < 0 || end + 2 >= |stat| then Malformed
    else
      var fields := Fields(stat[end + 2..]);
      if |fields| < 20 then TooFewFields
      else
        match ParseUint(fields[START_TIME])
        case None => BadNumber
        case Some(epoch) => Ok(epoch)
  }

  /** procStat, once the file has been read. */
  function ProcStat(line: string): Result<(char, nat)> {
    var end := LastIndex(line, ')');
    if end < 0 || end + 2 >= |line| then Malformed
    else
      var fields := Fields(line[end + 2..]);
      if |fields| < 20 || fields[STATE] == "" then TooFewFields
      else
        match ParseUint(fields[START_TIME])
        case None => BadNumber
        case Some(epoch) => Ok((fields[STATE][0], epoch))
  }

  lemma {:induction false} FieldsAreWords(s: string)
    ensures forall f | f in Fields(s) :: f != "" && forall i | 0 <= i < |f| :: !IsSpace(f[i])
  {
    if s != "" {
      if IsSpace(s[0]) {
        FieldsAreWords(s[1..]);
      } else {
        FieldsAreWords(s[WordLength(s)..]);
      }
    }
  }

  /** The two parsers, which the code keeps apart, succeed on the same lines with the same epoch and
      fail on the same lines for the same reason. */
  lemma ParsersAgree(line: string)
    ensures match ProcStat(line)
            case Ok((_, epoch)) => ParseStartEpoch(line) == Ok(epoch)
            case Malformed => ParseStartEpoch(line).Malformed?
            case TooFewFields => ParseStartEpoch(line).TooFewFields?
            case BadNumber => ParseStartEpoch(line).BadNumber?
  {
    var end := LastIndex(line, ')');
    if 0 <= end && end + 2 < |line| {
      FieldsAreWords(line[end + 2..]);
    }
  }

  // ----- Reading back what the kernel writes -----

  predicate IsWord(w: string) {
    w != "" && forall i | 0 <= i < |w| :: !IsSpace(w[i])
  }

  function Join(words: seq<string>): string {
    if words == [] then ""
    else if |words| == 1 then words[0]
    else words[0] + " " + Join(words[1..])
  }

  function Head(pid: nat, comm: string): string {
    Render(pid) + " (" + comm + ")"
  }

  function Tail(fields: seq<string>): string {
    " " + (Join(fields) + "\n")
  }

  function RenderStat(pid: nat, comm: string, fields: seq<string>): string {
    Head(pid, comm) + Tail(fields)
  }

  lemma {:induction false} WordLengthOf(w: string, rest: string)
    requires IsWord(w) && rest != "" && IsSpace(rest[0])
    ensures WordLength(w + rest) == |w|
  {
    if |w| > 1 {
      assert (w + rest)[1..] == w[1..] + rest;
      WordLengthOf(w[1..], rest);
    } else {
      assert (w + rest)[1..] == rest;
    }
  }

  lemma FieldsStep(w: string, rest: string)
    requires IsWord(w) && rest != "" && IsSpace(rest[0])
    ensures Fields(w + rest) == [w] + Fields(rest[1..])
  {
    WordLengthOf(w, rest);
    assert (w + rest)[..|w|] == w && (w + rest)[|w|..] == rest;
  }

  /** A line is its first word, a space and the line of the other words. */
  lemma LineStep(words: seq<string>)
    requires |words| > 1
    ensures Join(words) + "\n" == words[0] + (" " + (Join(words[1..]) + "\n"))
  {
    var rest := Join(words[1..]);
    assert Join(words) == words[0] + (" " + rest);
    assert words[0] + (" " + rest) + "\n" == words[0] + (" " + (rest + "\n"));
  }

  lemma {:induction false} FieldsOfJoin(words: seq<string>)
    requires forall i | 0 <= i < |words| :: IsWord(words[i])
    ensures Fields(Join(words) + "\n") == words
  {
    if words == [] {
      assert Fields("\n") == Fields("\n"[1..]) == [];
    } else if |words| == 1 {
      FieldsStep(words[0], "\n");
      assert Fields("\n"[1..]) == [];
    } else {
      LineStep(words);
      var line := Join(words[1..]) + "\n";
      FieldsStep(words[0], " " + line);
      assert (" " + line)[1..] == line;
      FieldsOfJoin(words[1..]);
    }
  }

  lemma {:induction false} JoinHasNoParenthesis(words: seq<string>)
    requires forall i | 0 <= i < |words| :: ')' !in words[i]
    ensures ')' !in Join(words)
  {
    if |words| > 1 {
      JoinHasNoParenthesis(words[1..]);
    }
  }

  lemma LastIndexIs(s: string, i: nat)
    requires i < |s| && s[i] == ')' && ')' !in s[i + 1..]
    ensures LastIndex(s, ')') == i
  {
    forall j | i < j < |s| ensures s[j] != ')' {
      assert s[j] == s[i + 1..][j - i - 1];
    }
  }

  lemma TailIsClean(fields: seq<string>)
    requires forall i | 0 <= i < |fields| :: ')' !in fields[i]
    ensures ')' !in Tail(fields) && |Tail(fields)| > 1 && Tail(fields)[1..] == Join(fields) + "\n"
  {
    JoinHasNoParenthesis(fields);
  }

  lemma CommEndsBeforeTail(head: string, tail: string)
    requires head != "" && head[|head| - 1] == ')' && ')' !in tail && |tail| > 1
    ensures LastIndex(head + tail, ')') == |head| - 1 && (head + tail)[|head| + 1..] == tail[1..]
  {
    assert (head + tail)[|head|..] == tail;
    LastIndexIs(head + tail, |head| - 1);
  }

  lemma ParsesFieldsBehindComm(head: string, tail: string, state: char, epoch: nat)
    requires head != "" && head[|head| - 1] == ')' && ')' !in tail && |tail| > 1
    requires var fields := Fields(tail[1..]);
             && |fields| >= 20 && fields[STATE] != "" && fields[STATE][0] == state
             && ParseUint(fields[START_TIME]) == Some(epoch)
    ensures ParseStartEpoch(head + tail) == Ok(epoch) && ProcStat(head + tail) == Ok((state, epoch))
  {
    CommEndsBeforeTail(head, tail);
  }

  /** For every comm, whatever spaces and parentheses a process put in its own name, the fields
      behind it are read back as they were written. */
  lemma StatRoundTrip(pid: nat, comm: string, fields: seq<string>, state: char, epoch: nat)
    requires |fields| >= 20 && fields[0] != "" && fields[0][0] == state
    requires fields[19] == Render(epoch) && epoch <= 0xFFFF_FFFF_FFFF_FFFF
    requires forall i | 0 <= i < |fields| :: IsWord(fields[i]) && ')' !in fields[i]
    ensures ParseStartEpoch(RenderStat(pid, comm, fields)) == Ok(epoch)
    ensures ProcStat(RenderStat(pid, comm, fields)) == Ok((state, epoch))
  {
    TailIsClean(fields);
    FieldsOfJoin(fields);
    RenderParses(epoch);
    ParsesFieldsBehindComm(Head(pid, comm), Tail(fields), state, epoch);
  }

  // ----- Has an adopted process exited? -----

  /** What reading the status file gives: no such file, another failure, or a line. */
  datatype Read = Missing | Failed | Line(line: string)

  predicate AdoptedHasExited(read: Read, epoch: nat) {
    match read
    case Missing => true
    case Failed => false
    case Line(line) =>
      match ProcStat(line)
      case Ok((state, current)) => current != epoch || state == 'Z' || state == 'X'
      case _ => false
  }

  /** A readable line counts as an exit exactly when another incarnation has the pid or the process
      is a zombie or dead; no process can name itself into or out of that. */
  lemma ExitIsDecidedByEpochAndState(pid: nat, comm: string, fields: seq<string>, state: char, current: nat, epoch: nat)
    requires |fields| >= 20 && fields[0] != "" && fields[0][0] == state
    requires fields[19] == Render(current) && current <= 0xFFFF_FFFF_FFFF_FFFF
    requires forall i | 0 <= i < |fields| :: IsWord(fields[i]) && ')' !in fields[i]
    ensures AdoptedHasExited(Line(RenderStat(pid, comm, fields)), epoch) <==> current != epoch || state == 'Z' || state == 'X'
  {
    StatRoundTrip(pid, comm, fields, state, current);
  }

  /** A line with too few fields cannot be parsed. */
  lemma ShortLineIsRefused(pid: nat, comm: string, fields: seq<string>)
    requires 0 < |fields| < 20
    requires forall i | 0 <= i < |fields| :: IsWord(fields[i]) && ')' !in fields[i]
    ensures ProcStat(RenderStat(pid, comm, fields)).TooFewFields?
  {
    TailIsClean(fields);
    FieldsOfJoin(fields);
    FewFieldsBehindComm(Head(pid, comm), Tail(fields));
  }

  lemma FewFieldsBehindComm(head: string, tail: string)
    requires head != "" && head[|head| - 1] == ')' && ')' !in tail && |tail| > 1 && |Fields(tail[1..])| < 20
    ensures ProcStat(head + tail).TooFewFields?
  {
    CommEndsBeforeTail(head, tail);
  }

  /** Without a readable line only the absence of the file is evidence of an exit: neither another
      failure nor a line that cannot be parsed is. */
  lemma OnlyAbsenceIsEvidence(read: Read, epoch: nat)
    requires read.Line? ==> !ParseStartEpoch(read.line).Ok?
    ensures AdoptedHasExited(read, epoch) <==> read == Missing
  {
    if read.Line? {
      ParsersAgree(read.line);
    }
  }
}
