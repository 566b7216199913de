/**
 * String helpers shared by the hubs and the request handler: the optional
 * and fallible result types, Go's `strings.HasPrefix`, and the text that a
 * sequence of `fmt.Fprintln` calls writes, with its inverse `Lines`.
 */
module Text {

  datatype Option<+T> = None | Some(value: T)

  datatype Result<+T, +E> = Ok(value: T) | Err(error: E)

  /** Go's `strings.HasPrefix(s, prefix)`. */
  predicate HasPrefix(s: string, prefix: string) {
    |prefix| <= |s| && s[..|prefix|] == prefix
  }

  /** What `fmt.Fprintln(w, line)` writes for each line in turn: every line followed by a newline. */
  function Joined(lines: seq<string>): (r: string)
    ensures |lines| == 0 <==> r == ""
    ensures |lines| > 0 ==> r[|r| - 1] == '\n'
  {
    if lines == [] then "" else lines[0] + "\n" + Joined(lines[1..])
  }

  lemma {:induction false} JoinedAppend(a: seq<string>, b: seq<string>)
    ensures Joined(a + b) == Joined(a) + Joined(b)
  {
    if a == [] {
      assert a + b == b;
    } else {
      assert (a + b)[1..] == a[1..] + b;
      JoinedAppend(a[1..], b);
    }
  }

  /** One more `Fprintln` call writes its line and a newline after what was written before. */
  lemma JoinedSnoc(lines: seq<string>, line: string)
    ensures Joined(lines + [line]) == Joined(lines) + line + "\n"
  {
    JoinedAppend(lines, [line]);
    assert [line][1..] == [];
  }

  /** The lines of `s`, split at every newline; the text after the last newline is the last line. */
  function Lines(s: string): (r: seq<string>)
    ensures |r| >= 1
  {
    if s == [] then [""]
    else if s[0] == '\n' then [""] + Lines(s[1..])
    else var t := Lines(s[1..]); [[s[0]] + t[0]] + t[1..]
  }

  predicate NoNewline(s: string) {
    forall i :: 0 <= i < |s| ==> s[i] != '\n'
  }

  lemma {:induction false} LinesOfLine(line: string, rest: string)
    requires NoNewline(line)
    ensures Lines(line + "\n" + rest) == [line] + Lines(rest)
  {
    if line == [] {
      assert line + "\n" + rest == ['\n'] + rest;
    } else {
      assert (line + "\n" + rest)[1..] == line[1..] + "\n" + rest;
      LinesOfLine(line[1..], rest);
      assert [line[0]] + line[1..] == line;
    }
  }

  /**
   * Splitting what a run of `Fprintln` calls wrote, followed by a final
   * unterminated line, gives back the lines written, as long as none of
   * them holds a newline itself.
   */
  lemma {:induction false} LinesOfJoined(lines: seq<string>, last: string)
    requires forall i :: 0 <= i < |lines| ==> NoNewline(lines[i])
    requires NoNewline(last)
    ensures Lines(Joined(lines) + last) == lines + [last]
  {
    if lines == [] {
      LinesOfNoNewline(last);
      assert Joined(lines) + last == last;
    } else {
      assert Joined(lines) + last == lines[0] + "\n" + (Joined(lines[1..]) + last);
      LinesOfLine(lines[0], Joined(lines[1..]) + last);
      LinesOfJoined(lines[1..], last);
      assert lines == [lines[0]] + lines[1..];
    }
  }

  lemma {:induction false} LinesOfNoNewline(s: string)
    requires NoNewline(s)
    ensures Lines(s) == [s]
  {
    if s != [] {
      LinesOfNoNewline(s[1..]);
      assert [s[0]] + s[1..] == s;
    }
  }
}
