/** Filling the output buffer of the entry rewriter, line by line. */
module EntryWriter {
  import opened EntryLines
  import opened EntryReader
  import opened EntryRewrite

  /** What the writer needs at hand: the section header and the key to set, the text that sets it, and
      the lines for the keys that may be missing, in the order the source adds them. */
  datatype Script = Script(
    header: string, key: string, setText: string,
    needType: bool, typeText: string, needName: bool, nameText: string, needExec: bool, execText: string)

  function When(wanted: bool, data: string): string { if wanted then data else "" }

  function MissingText(s: Script): string {
    When(s.needType, s.typeText) + When(s.needName, s.nameText) + When(s.needExec, s.execText)
  }

  ghost predicate Describes(s: Script, p: Plan) {
    && KeyOk(p) && s.header == p.header && s.key == p.key
    && s.setText == SetLine(p) + "\n"
    && MissingText(s) == Text(p.extras)
    && s.typeText != "" && s.nameText != "" && s.execText != ""
  }

  // ----- appending -----

  /** Room for what was written and for a NUL, unless there is no room at all. */
  predicate Holds(out: array<char>, used: nat) { used < out.Length || (used == 0 && out.Length == 0) }

  /** What was written ends with a NUL. */
  predicate Closed(out: array<char>, used: nat)
    reads out
  {
    used < out.Length && out[used] == '\0'
  }

  /** `append`. */
  method Append(out: array<char>, used: nat, data: string) returns (ok: bool, used': nat)
    requires Holds(out, used)
    modifies out
    ensures ok == (used + |data| < out.Length)
    ensures ok ==> used' == used + |data| && out[..used'] == old(out[..used]) + data && out[used'] == '\0'
    ensures !ok ==> used' == used
  {
    if |data| >= out.Length - used {
      return false, used;
    }
    ghost var was := out[..used];
    var i := 0;
    while i < |data|
      invariant 0 <= i <= |data|
      invariant out[..used + i] == was + data[..i]
    {
      out[used + i] := data[i];
      assert out[..used + i] == was + data[..i];
      assert out[..used + i + 1] == out[..used + i] + [data[i]];
      assert data[..i + 1] == data[..i] + [data[i]];
      i := i + 1;
    }
    used' := used + |data|;
    assert out[..used'] == was + data;
    out[used'] := '\0';
    assert out[..used'] == was + data;
    ok := true;
  }

  /** An append that is skipped when it is not wanted. */
  method AppendIf(out: array<char>, used: nat, wanted: bool, data: string) returns (ok: bool, used': nat)
    requires Holds(out, used)
    modifies out
    ensures ok == (!wanted || used + |data| < out.Length)
    ensures ok ==> Holds(out, used') && out[..used'] == old(out[..used]) + When(wanted, data)
    ensures ok ==> used' == used + |When(wanted, data)| && (wanted || old(Closed(out, used)) ==> Closed(out, used'))
  {
    ok, used' := true, used;
    if wanted {
      ok, used' := Append(out, used, data);
    }
  }

  /** The missing keys. */
  method AddMissing(out: array<char>, used: nat, s: Script) returns (ok: bool, used': nat)
    requires Holds(out, used) && s.typeText != "" && s.nameText != "" && s.execText != ""
    modifies out
    ensures var x := MissingText(s);
      && ok == (x == "" || used + |x| < out.Length)
      && (ok ==> used' == used + |x| && Holds(out, used') && out[..used'] == old(out[..used]) + x)
      && (ok && (x != "" || old(Closed(out, used))) ==> Closed(out, used'))
  {
    ghost var was := out[..used];
    ok, used' := AppendIf(out, used, s.needType, s.typeText);
    if ok {
      ok, used' := AppendIf(out, used', s.needName, s.nameText);
      Regroup(was, When(s.needType, s.typeText), When(s.needName, s.nameText));
    }
    if ok {
      Regroup(was, When(s.needType, s.typeText) + When(s.needName, s.nameText), When(s.needExec, s.execText));
      ok, used' := AppendIf(out, used', s.needExec, s.execText);
    }
  }

  /** What is written where the section ends. */
  method Leave(out: array<char>, used: nat, changed: bool, added: bool, s: Script, ghost p: Plan)
      returns (ok: bool, used': nat)
    requires Holds(out, used) && Describes(s, p)
    modifies out
    ensures var x := SetText(p, changed) + ExtrasText(p, added);
      && ok == (x == "" || used + |x| < out.Length)
      && (ok ==> used' == used + |x| && Holds(out, used') && out[..used'] == old(out[..used]) + x)
      && (ok && (x != "" || old(Closed(out, used))) ==> Closed(out, used'))
  {
    ghost var was := out[..used];
    ok, used' := AppendIf(out, used, !changed, s.setText);
    assert SetText(p, changed) == When(!changed, s.setText);
    if ok && !added {
      ok, used' := AddMissing(out, used', s);
      Regroup(was, SetText(p, changed), ExtrasText(p, added));
    }
  }

  /** The copying of a line. */
  method CopyLine(out: array<char>, used: nat, line: string) returns (ok: bool, used': nat)
    requires Holds(out, used)
    modifies out
    ensures ok == (used + |line| + 1 < out.Length)
    ensures ok ==> used' == used + |line| + 1 && out[..used'] == old(out[..used]) + (line + "\n") && Closed(out, used')
  {
    ghost var was := out[..used];
    ok, used' := Append(out, used, line);
    if ok {
      ok, used' := Append(out, used', "\n");
      Regroup(was, line, "\n");
    }
  }

  // ----- lines -----

  /** A heading: close the section it ends, and copy it. */
  method WriteHeading(out: array<char>, used: nat, line: string, section: bool, changed: bool, added: bool,
                      s: Script, ghost p: Plan)
      returns (ok: bool, used': nat)
    requires Holds(out, used) && Describes(s, p) && Heading(line)
    modifies out
    ensures var x := Piece(line, section, changed, added, p);
      && ok == (used + |x| < out.Length)
      && (ok ==> used' == used + |x| && out[..used'] == old(out[..used]) + x && Closed(out, used'))
  {
    ghost var was := out[..used];
    ghost var pre := if section then SetText(p, changed) + ExtrasText(p, added) else "";
    ok, used' := true, used;
    if section {
      ok, used' := Leave(out, used, changed, added, s, p);
    }
    if ok {
      assert out[..used'] == was + pre;
      ok, used' := CopyLine(out, used', line);
      Regroup(was, pre, line + "\n");
      Regroup(pre, line, "\n");
    }
  }

  /** Any other line: copied, unless it is one of the section for the key. */
  method WriteOther(out: array<char>, used: nat, line: string, section: bool, changed: bool, ghost added: bool,
                    s: Script, ghost p: Plan)
      returns (ok: bool, used': nat, changed': bool)
    requires Holds(out, used) && Describes(s, p) && !Heading(line)
    modifies out
    ensures var x := Piece(line, section, changed, added, p);
      && ok == (x == "" || used + |x| < out.Length)
      && (ok ==> used' == used + |x| && Holds(out, used') && out[..used'] == old(out[..used]) + x)
    ensures ok && (used > 0 ==> old(Closed(out, used))) && used' > 0 ==> Closed(out, used')
    ensures changed' == (changed || (section && Assigns(line, p.key)))
  {
    changed' := changed;
    if section && Assigns(line, s.key) {
      ok, used' := AppendIf(out, used, !changed, s.setText);
      changed' := true;
    } else {
      ok, used' := CopyLine(out, used, line);
    }
  }

  /** One round of the loop: what was written, and what is still to come, make up the text. */
  method WriteLine(out: array<char>, used: nat, line: string, section: bool, changed: bool, added: bool,
                   s: Script, ghost p: Plan, ghost rest: seq<string>)
      returns (ok: bool, used': nat, section': bool, changed': bool, added': bool)
    requires Holds(out, used) && Describes(s, p)
    modifies out
    ensures var tail := Text(Rewrite([line] + rest, section, changed, added, p));
      && (!ok ==> used + |tail| >= out.Length)
      && (ok ==> used' <= out.Length && old(out[..used]) + tail == out[..used'] + Text(Rewrite(rest, section', changed', added', p)))
    ensures ok ==> Holds(out, used') && used' >= used
    ensures ok && (used > 0 ==> old(Closed(out, used))) && used' > 0 ==> Closed(out, used')
    ensures section' == Entered(line, section, p) && (ok && Heading(line) ==> used' > 0)
  {
    Advance(line, rest, section, changed, added, p);
    ghost var was := out[..used];
    section', changed', added' := section, changed, added;
    if |line| > 0 && line[0] == '[' {
      ok, used' := WriteHeading(out, used, line, section, changed, added, s, p);
      changed', added' := changed || section, added || section;
      section' := line == s.header;
    } else {
      ok, used', changed' := WriteOther(out, used, line, section, changed, added, s, p);
    }
    Regroup(was, Piece(line, section, changed, added, p), Text(Rewrite(rest, section', changed', added', p)));
  }

  /** The loop of `toggle_hidden` and what follows it. */
  method RewriteLines(source: string, out: array<char>, s: Script, ghost p: Plan)
      returns (ok: bool, used: nat, hasSection: bool)
    requires Describes(s, p)
    modifies out
    ensures var full := Text(Rewrite(Lines(source), false, false, false, p));
      && (HasSection(Lines(source), p.header) ==> (ok && hasSection <==> |full| < out.Length))
      && (ok && hasSection ==> HasSection(Lines(source), p.header) && Closed(out, used) && out[..used] == full)
  {
    ghost var lines := Lines(source);
    ghost var full := Text(Rewrite(lines, false, false, false, p));
    used, hasSection := 0, false;
    var section, changed, added := false, false, false;
    var pos := 0;
    assert source[0..] == source;
    while pos < |source|
      invariant 0 <= pos <= |source| && lines == Lines(source[pos..])
      invariant Holds(out, used) && (hasSection ==> used > 0) && (used > 0 ==> Closed(out, used))
      invariant full == out[..used] + Text(Rewrite(lines, section, changed, added, p))
      invariant HasSection(Lines(source), p.header) <==> hasSection || HasSection(lines, p.header)
    {
      var end := LineEnd(source, pos);
      var line := source[pos..end];
      var next := if end < |source| then end + 1 else end;
      LineStep(source, pos, end);
      lines := Lines(source[next..]);
      ok, used, section, changed, added := WriteLine(out, used, line, section, changed, added, s, p, lines);
      if !ok {
        return;
      }
      hasSection := hasSection || (|line| > 0 && line[0] == '[' && section);
      pos := next;
    }
    if !hasSection {
      return false, used, hasSection;
    }
    PendingText(p, changed, added);
    ok, used := Leave(out, used, changed, added, s, p);
  }
}
