/** Text as the sequence of its lines. A C string is the sequence of its characters before the
    terminating NUL. */
module EntryLines {

  function NewlineAt(s: string): (n: nat)
    ensures n <= |s| && (n < |s| ==> s[n] == '\n') && '\n' !in s[..n]
  {
    if s == "" || s[0] == '\n' then 0
    else
      var n := NewlineAt(s[1..]) + 1;
      assert s[..n] == [s[0]] + s[1..][..n - 1];
      n
  }

  /** What follows the first line. */
  function Rest(s: string): string {
    if NewlineAt(s) < |s| then s[NewlineAt(s) + 1..] else ""
  }

  function Lines(s: string): seq<string>
    decreases |s|
  {
    if s == "" then [] else [s[..NewlineAt(s)]] + Lines(Rest(s))
  }

  function Text(lines: seq<string>): string {
    if lines == [] then "" else lines[0] + "\n" + Text(lines[1..])
  }

  ghost predicate OneLiners(lines: seq<string>) {
    forall l :: l in lines ==> '\n' !in l
  }

  lemma {:induction false} LinesAreOneLiners(s: string)
    ensures OneLiners(Lines(s))
    decreases |s|
  {
    if s != "" { LinesAreOneLiners(Rest(s)); }
  }

  lemma {:induction false} NewlineFirst(l: string, s: string)
    requires '\n' !in l
    ensures NewlineAt(l + "\n" + s) == |l|
  {
    if l == "" {
      assert l + "\n" + s == "\n" + s;
    } else {
      NewlineFirst(l[1..], s);
      assert (l + "\n" + s)[1..] == l[1..] + "\n" + s;
      assert l[0] in l;
    }
  }

  lemma LinesCons(l: string, s: string)
    requires '\n' !in l
    ensures Lines(l + "\n" + s) == [l] + Lines(s)
  {
    var t := l + "\n" + s;
    NewlineFirst(l, s);
    assert t[..|l|] == l && t[|l| + 1..] == s;
  }

  /** Reading back written lines. */
  lemma {:induction false} LinesOfText(lines: seq<string>)
    requires OneLiners(lines)
    ensures Lines(Text(lines)) == lines
  {
    if lines != [] {
      assert lines[0] in lines;
      LinesOfText(lines[1..]);
      LinesCons(lines[0], Text(lines[1..]));
    }
  }

  /** Joining undoes splitting for text that ends with a newline. */
  lemma {:induction false} TextOfLines(s: string)
    requires s != "" ==> s[|s| - 1] == '\n'
    ensures Text(Lines(s)) == s
    decreases |s|
  {
    if s != "" {
      FirstLine(s);
      TextOfLines(Rest(s));
      assert Lines(s)[1..] == Lines(Rest(s));
    }
  }

  lemma FirstLine(s: string)
    requires s != "" && s[|s| - 1] == '\n'
    ensures s == s[..NewlineAt(s)] + "\n" + Rest(s)
    ensures Rest(s) != "" ==> Rest(s)[|Rest(s)| - 1] == '\n'
  {
    var n := NewlineAt(s);
    assert s[..|s|] == s && s[|s| - 1] in s;
  }

  lemma {:induction false} TextConcat(xs: seq<string>, ys: seq<string>)
    ensures Text(xs + ys) == Text(xs) + Text(ys)
  {
    if xs == [] {
      assert xs + ys == ys;
    } else {
      TextConcat(xs[1..], ys);
      assert (xs + ys)[1..] == xs[1..] + ys;
    }
  }

  lemma LineStep(s: string, pos: nat, end: nat)
    requires pos < |s| && pos <= end <= |s| && end == pos + NewlineAt(s[pos..])
    ensures var next := if end < |s| then end + 1 else end;
      Lines(s[pos..]) == [s[pos..end]] + Lines(s[next..])
  {
    assert s[pos..][..NewlineAt(s[pos..])] == s[pos..end];
    var next := if end < |s| then end + 1 else end;
    assert Rest(s[pos..]) == s[next..];
  }
}
