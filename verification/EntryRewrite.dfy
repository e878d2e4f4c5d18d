/** The reader and the rewriter of an entry, for any section header and any key to set. */
module EntryRewrite {
  import opened Common
  import opened EntryLines

  // ----- lookup -----

  predicate Assigns(line: string, key: string) {
    |line| > |key| && line[..|key|] == key && line[|key|] == '='
  }

  function Or(a: Option<string>, b: Option<string>): Option<string> { if a.Some? then a else b }

  /** The value `key` has for the reader: the last assignment in a section it takes for the entry's.
      `section` tells whether the lines start inside one. */
  function Value(header: string, lines: seq<string>, section: bool, key: string): Option<string> {
    if lines == [] then None
    else if |lines[0]| >= 2 && lines[0][0] == '[' then Value(header, lines[1..], lines[0] == header, key)
    else Or(Value(header, lines[1..], section, key),
            if section && Assigns(lines[0], key) then Some(lines[0][|key| + 1..]) else None)
  }

  /** Whether the reader is in a section it takes for the entry's once it has read a line. */
  function Reading(header: string, l: string, section: bool): bool {
    if |l| >= 2 && l[0] == '[' then l == header else section
  }

  function After(header: string, lines: seq<string>, section: bool): bool {
    if lines == [] then section else After(header, lines[1..], Reading(header, lines[0], section))
  }

  /** What one line gives the key. */
  function Given(l: string, section: bool, key: string): Option<string> {
    if !(|l| >= 2 && l[0] == '[') && section && Assigns(l, key) then Some(l[|key| + 1..]) else None
  }

  // ----- the rewrite -----

  /** The header of the section, the key to set there and its value, and the lines to add for keys
      that are missing. */
  datatype Plan = Plan(header: string, key: string, value: string, extras: seq<string>)

  function SetLine(p: Plan): string { p.key + "=" + p.value }

  predicate Heading(line: string) { |line| > 0 && line[0] == '[' }

  function Pending(p: Plan, changed: bool, added: bool): seq<string> {
    (if changed then [] else [SetLine(p)]) + (if added then [] else p.extras)
  }

  /** The lines the rewriter still has to write. */
  function Rewrite(lines: seq<string>, section: bool, changed: bool, added: bool, p: Plan): seq<string>
    decreases |lines|
  {
    if lines == [] then Pending(p, changed, added)
    else
      var leaving := Heading(lines[0]) && section;
      var section' := if Heading(lines[0]) then lines[0] == p.header else section;
      var changed', added' := changed || leaving, added || leaving;
      (if leaving then Pending(p, changed, added) else [])
      + if section' && Assigns(lines[0], p.key)
        then (if changed' then [] else [SetLine(p)]) + Rewrite(lines[1..], section', true, added', p)
        else [lines[0]] + Rewrite(lines[1..], section', changed', added', p)
  }

  /** A line of the section for the key: the first is replaced, later ones are dropped. */
  lemma RewriteSet(lines: seq<string>, section: bool, changed: bool, added: bool, p: Plan)
    requires lines != [] && section && !Heading(lines[0]) && Assigns(lines[0], p.key)
    ensures Rewrite(lines, section, changed, added, p)
         == Pending(p, changed, true) + Rewrite(lines[1..], section, true, added, p)
  {
    assert Pending(p, changed, true) == if changed then [] else [SetLine(p)];
  }

  /** Any other line is copied; a heading first ends the section. */
  lemma RewriteCopied(lines: seq<string>, section: bool, changed: bool, added: bool, p: Plan)
    requires lines != [] && !(Entered(lines[0], section, p) && Assigns(lines[0], p.key))
    ensures var leaving := Heading(lines[0]) && section;
      Rewrite(lines, section, changed, added, p)
      == (if leaving then Pending(p, changed, added) else [])
       + ([lines[0]] + Rewrite(lines[1..], Entered(lines[0], section, p), changed || leaving, added || leaving, p))
  {
  }

  function Entered(l: string, section: bool, p: Plan): bool { if Heading(l) then l == p.header else section }

  predicate HasSection(lines: seq<string>, header: string) { header in lines }

  // ----- the reader on joined lines -----

  lemma ValueCons(header: string, l: string, rest: seq<string>, section: bool, key: string)
    ensures Value(header, [l] + rest, section, key)
         == Or(Value(header, rest, Reading(header, l, section), key), Given(l, section, key))
    ensures After(header, [l] + rest, section) == After(header, rest, Reading(header, l, section))
  {
    assert ([l] + rest)[1..] == rest;
  }

  lemma {:induction false} ValueConcat(header: string, pre: seq<string>, lines: seq<string>, section: bool, key: string)
    ensures Value(header, pre + lines, section, key)
         == Or(Value(header, lines, After(header, pre, section), key), Value(header, pre, section, key))
    ensures After(header, pre + lines, section) == After(header, lines, After(header, pre, section))
  {
    if pre == [] {
      assert pre + lines == lines;
    } else {
      var l := pre[0];
      assert pre + lines == [l] + (pre[1..] + lines) && pre == [l] + pre[1..];
      ValueCons(header, l, pre[1..] + lines, section, key);
      ValueConcat(header, pre[1..], lines, Reading(header, l, section), key);
    }
  }

  /** The value after some lines, one line, and the rest. */
  lemma ValueInsert(header: string, pre: seq<string>, l: string, rest: seq<string>, section: bool, key: string)
    ensures var s := After(header, pre, section);
      Value(header, pre + ([l] + rest), section, key)
      == Or(Value(header, rest, Reading(header, l, s), key), Or(Given(l, s, key), Value(header, pre, section, key)))
  {
    ValueConcat(header, pre, [l] + rest, section, key);
    ValueCons(header, l, rest, After(header, pre, section), key);
  }

  ghost predicate Plain(lines: seq<string>) {
    forall l :: l in lines ==> !Heading(l)
  }

  lemma {:induction false} PlainAfter(header: string, lines: seq<string>, section: bool, key: string)
    requires Plain(lines)
    ensures After(header, lines, section) == section
    ensures Value(header, lines, section, key) == if section then Value(header, lines, true, key) else None
  {
    if lines != [] {
      assert lines[0] in lines;
      PlainAfter(header, lines[1..], section, key);
    }
  }

  predicate KeyOk(p: Plan) {
    && |p.header| >= 2 && p.header[0] == '['
    && p.key != "" && p.key[0] != '[' && '=' !in p.key && '\n' !in p.key
  }

  ghost predicate PlanOk(p: Plan) {
    KeyOk(p) && '\n' !in p.value && OneLiners(p.extras)
  }

  /** The added lines are plain assignments of other keys. */
  ghost predicate Tame(p: Plan) {
    Plain(p.extras) && forall l :: l in p.extras ==> !Assigns(l, p.key)
  }

  lemma {:induction false} ValueOfOthers(header: string, lines: seq<string>, section: bool, key: string)
    requires Plain(lines) && forall l :: l in lines ==> !Assigns(l, key)
    ensures Value(header, lines, section, key) == None
  {
    if lines != [] {
      ValueOfOthers(header, lines[1..], section, key);
      assert lines[0] in lines;
    }
  }

  /** A line assigns at most one key without `=`: what stands before its first `=`. */
  function EqualsAt(s: string): nat {
    if s == "" || s[0] == '=' then 0 else 1 + EqualsAt(s[1..])
  }

  lemma {:induction false} AssignedKey(line: string, key: string)
    requires Assigns(line, key) && '=' !in key
    ensures |key| == EqualsAt(line) && key == line[..|key|]
  {
    if key != "" {
      assert line[0] == line[..|key|][0] == key[0] && key[0] in key;
      assert line[1..][..|key| - 1] == line[..|key|][1..];
      AssignedKey(line[1..], key[1..]);
    }
  }

  lemma OneKey(line: string, k1: string, k2: string)
    requires '=' !in k1 && '=' !in k2 && Assigns(line, k1)
    ensures Assigns(line, k2) <==> k1 == k2
  {
    AssignedKey(line, k1);
    if Assigns(line, k2) { AssignedKey(line, k2); }
  }

  lemma HeadingSetsNothing(l: string, p: Plan)
    requires KeyOk(p) && Heading(l)
    ensures !Assigns(l, p.key)
  {
    if |l| > |p.key| { assert l[..|p.key|][0] == l[0]; }
  }

  lemma SetLineIs(p: Plan)
    requires KeyOk(p)
    ensures !Heading(SetLine(p)) && Assigns(SetLine(p), p.key) && SetLine(p)[|p.key| + 1..] == p.value
    ensures '\n' !in p.value ==> '\n' !in SetLine(p)
  {
    assert SetLine(p)[..|p.key|] == p.key;
  }

  lemma OneValue(header: string, k: string, v: string, section: bool, key: string)
    requires '=' !in key && '=' !in k && k != "" && k[0] != '['
    ensures Value(header, [k + "=" + v], section, key) == if section && key == k then Some(v) else None
    ensures After(header, [k + "=" + v], section) == section
  {
    var l := k + "=" + v;
    var none: seq<string> := [];
    assert [l][1..] == none;
    assert l[|k|] == '=' && l[..|k|] == k && l[|k| + 1..] == v;
    OneKey(l, k, key);
  }

  /** What the reader makes of the lines that end the section. */
  lemma PendingValue(p: Plan, changed: bool, added: bool, section: bool, key: string)
    requires KeyOk(p) && '=' !in key
    ensures After(p.header, Pending(p, changed, added), section)
         == if added then section else After(p.header, p.extras, section)
    ensures Value(p.header, Pending(p, changed, added), section, key)
         == Or(if added then None else Value(p.header, p.extras, section, key),
               if key == p.key && !changed && section then Some(p.value) else None)
  {
    var first := if changed then [] else [SetLine(p)];
    ValueConcat(p.header, first, if added then [] else p.extras, section, key);
    OneValue(p.header, p.key, p.value, section, key);
  }

  // ----- what the rewrite does to the key it sets -----

  /** What the reader takes for the key's value in place of the one set: the last line that assigns it
      among those the rewriter counts out of the section and the reader does not (they stand after a lone
      `[`, which only the rewriter takes for a heading) and among the added lines. */
  function Shadow(p: Plan, lines: seq<string>, section: bool, reading: bool, added: bool): Option<string>
    decreases |lines|
  {
    if lines == [] then if added then None else Value(p.header, p.extras, reading, p.key)
    else
      var l := lines[0];
      var ends := Heading(l) && section && !added;
      var before := if ends then After(p.header, p.extras, reading) else reading;
      Or(Shadow(p, lines[1..], Entered(l, section, p), Reading(p.header, l, before), added || (Heading(l) && section)),
         Or(if Entered(l, section, p) then None else Given(l, before, p.key),
            if ends then Value(p.header, p.extras, reading, p.key) else None))
  }

  lemma {:induction false} SetKeyAfter(
      lines: seq<string>, section: bool, reading: bool, changed: bool, added: bool, p: Plan)
    requires KeyOk(p) && (section ==> reading) && (reading && !changed ==> section)
    requires changed || section || HasSection(lines, p.header)
    ensures Value(p.header, Rewrite(lines, section, changed, added, p), reading, p.key)
         == Or(Shadow(p, lines, section, reading, added), if changed then None else Some(p.value))
    decreases |lines|
  {
    if lines == [] {
      PendingValue(p, changed, added, reading, p.key);
    } else {
      var l := lines[0];
      assert lines == [l] + lines[1..];
      if Heading(l) { HeadingSetsNothing(l, p); }
      if section && Assigns(l, p.key) {
        SetKeyAfter(lines[1..], section, reading, true, added, p);
        SetHere(lines, changed, added, p);
      } else {
        var leaving := Heading(l) && section;
        var before := if leaving && !added then After(p.header, p.extras, reading) else reading;
        SetKeyAfter(lines[1..], Entered(l, section, p), Reading(p.header, l, before),
                    changed || leaving, added || leaving, p);
        SetCopied(lines, section, reading, changed, added, p);
      }
    }
  }

  /** At a line of the section for the key. */
  lemma SetHere(lines: seq<string>, changed: bool, added: bool, p: Plan)
    requires KeyOk(p) && lines != [] && Assigns(lines[0], p.key) && !Heading(lines[0])
    requires Value(p.header, Rewrite(lines[1..], true, true, added, p), true, p.key)
          == Shadow(p, lines[1..], true, true, added)
    ensures Value(p.header, Rewrite(lines, true, changed, added, p), true, p.key)
         == Or(Shadow(p, lines, true, true, added), if changed then None else Some(p.value))
  {
    var rest := Rewrite(lines[1..], true, true, added, p);
    RewriteSet(lines, true, changed, added, p);
    PendingValue(p, changed, true, true, p.key);
    ValueConcat(p.header, Pending(p, changed, true), rest, true, p.key);
  }

  /** At any other line. */
  lemma SetCopied(lines: seq<string>, section: bool, reading: bool, changed: bool, added: bool, p: Plan)
    requires KeyOk(p) && lines != [] && !(Entered(lines[0], section, p) && Assigns(lines[0], p.key))
    requires (section ==> reading) && (reading && !changed ==> section)
    requires var leaving := Heading(lines[0]) && section;
      var before := if leaving && !added then After(p.header, p.extras, reading) else reading;
      var section', reading' := Entered(lines[0], section, p), Reading(p.header, lines[0], before);
      Value(p.header, Rewrite(lines[1..], section', changed || leaving, added || leaving, p), reading', p.key)
      == Or(Shadow(p, lines[1..], section', reading', added || leaving), if changed || leaving then None else Some(p.value))
    ensures Value(p.header, Rewrite(lines, section, changed, added, p), reading, p.key)
         == Or(Shadow(p, lines, section, reading, added), if changed then None else Some(p.value))
  {
    var l, leaving := lines[0], Heading(lines[0]) && section;
    var rest := Rewrite(lines[1..], Entered(l, section, p), changed || leaving, added || leaving, p);
    var pre := if leaving then Pending(p, changed, added) else [];
    RewriteCopied(lines, section, changed, added, p);
    PendingValue(p, changed, added, reading, p.key);
    ValueInsert(p.header, pre, l, rest, reading, p.key);
  }

  /** An entry without a lone `[` is shadowed by the added lines only. */
  lemma {:induction false} NoLoneBracketNoShadow(p: Plan, lines: seq<string>, section: bool, added: bool)
    requires KeyOk(p) && "[" !in lines && (added || section || HasSection(lines, p.header))
    ensures Shadow(p, lines, section, section, added)
         == if added then None else Value(p.header, p.extras, true, p.key)
    decreases |lines|
  {
    if lines != [] {
      var l := lines[0];
      assert lines == [l] + lines[1..];
      if |l| == 1 { assert l == [l[0]]; }
      NoLoneBracketNoShadow(p, lines[1..], Entered(l, section, p), added || (Heading(l) && section));
    }
  }

  /** Added lines that are plain and for other keys cast no shadow. */
  lemma {:induction false} TameShadow(p: Plan, lines: seq<string>, section: bool, reading: bool, added: bool)
    requires Tame(p)
    ensures Shadow(p, lines, section, reading, added) == Shadow(p.(extras := []), lines, section, reading, added)
    decreases |lines|
  {
    PlainAfter(p.header, p.extras, reading, p.key);
    ValueOfOthers(p.header, p.extras, reading, p.key);
    if lines != [] {
      var l := lines[0];
      TameShadow(p, lines[1..], Entered(l, section, p), Reading(p.header, l, reading), added || (Heading(l) && section));
    }
  }

  /** A lone `[` hides what follows it from the rewriter, not from the reader. */
  lemma ShadowAfterBracket(p: Plan, value: string)
    requires KeyOk(p) && p.extras == []
    ensures Shadow(p, [p.header, "[", p.key + "=" + value], false, false, false) == Some(value)
  {
    var l := p.key + "=" + value;
    var none: seq<string> := [];
    assert [p.header, "[", l][1..] == ["[", l] && ["[", l][1..] == [l] && [l][1..] == none;
    assert l[..|p.key|] == p.key && l[|p.key| + 1..] == value;
    assert Shadow(p, [l], false, true, true) == Some(value);
    assert Shadow(p, ["[", l], true, true, false) == Some(value);
  }

  // ----- what it does to other keys -----

  /** The lines with the added ones where the section first ends, and nothing else changed. */
  function Inserted(lines: seq<string>, section: bool, added: bool, p: Plan): seq<string>
    decreases |lines|
  {
    if lines == [] then if added then [] else p.extras
    else
      var leaving := Heading(lines[0]) && section;
      (if leaving && !added then p.extras else [])
      + ([lines[0]] + Inserted(lines[1..], Entered(lines[0], section, p), added || leaving, p))
  }

  /** For any key but the one it sets, all the rewrite does is to insert the added lines. */
  lemma {:induction false} OtherAfter(
      lines: seq<string>, section: bool, reading: bool, changed: bool, added: bool, p: Plan, key: string)
    requires KeyOk(p) && key != p.key && '=' !in key
    ensures Value(p.header, Rewrite(lines, section, changed, added, p), reading, key)
         == Value(p.header, Inserted(lines, section, added, p), reading, key)
    decreases |lines|
  {
    if lines == [] {
      PendingValue(p, changed, added, reading, key);
    } else {
      var l := lines[0];
      assert lines == [l] + lines[1..];
      if Heading(l) { HeadingSetsNothing(l, p); }
      if section && Assigns(l, p.key) {
        OtherAfter(lines[1..], section, reading, true, added, p, key);
        OtherHere(lines, reading, changed, added, p, key);
      } else {
        var leaving := Heading(l) && section;
        var rest := Rewrite(lines[1..], Entered(l, section, p), changed || leaving, added || leaving, p);
        var pre := if leaving then Pending(p, changed, added) else [];
        var put := if leaving && !added then p.extras else [];
        RewriteCopied(lines, section, changed, added, p);
        PendingValue(p, changed, added, reading, key);
        OtherAfter(lines[1..], Entered(l, section, p), Reading(p.header, l, After(p.header, put, reading)),
                   changed || leaving, added || leaving, p, key);
        ValueInsert(p.header, pre, l, rest, reading, key);
        ValueInsert(p.header, put, l, Inserted(lines[1..], Entered(l, section, p), added || leaving, p), reading, key);
      }
    }
  }

  lemma OtherHere(lines: seq<string>, reading: bool, changed: bool, added: bool, p: Plan, key: string)
    requires KeyOk(p) && key != p.key && '=' !in key && lines != [] && Assigns(lines[0], p.key) && !Heading(lines[0])
    requires Value(p.header, Rewrite(lines[1..], true, true, added, p), reading, key)
          == Value(p.header, Inserted(lines[1..], true, added, p), reading, key)
    ensures Value(p.header, Rewrite(lines, true, changed, added, p), reading, key)
         == Value(p.header, Inserted(lines, true, added, p), reading, key)
  {
    var l, rest := lines[0], Inserted(lines[1..], true, added, p);
    RewriteSet(lines, true, changed, added, p);
    OneKey(l, p.key, key);
    PendingValue(p, changed, true, reading, key);
    ValueConcat(p.header, Pending(p, changed, true), Rewrite(lines[1..], true, true, added, p), reading, key);
    assert Inserted(lines, true, added, p) == [l] + rest;
    ValueCons(p.header, l, rest, reading, key);
  }

  /** Plain added lines for keys that are missing give these keys values, and leave the others theirs. */
  lemma {:induction false} InsertedPlain(lines: seq<string>, section: bool, reading: bool, added: bool, p: Plan, key: string)
    requires KeyOk(p) && Plain(p.extras) && (section ==> reading)
    requires added || section || HasSection(lines, p.header)
    requires Value(p.header, p.extras, true, key).None? || Value(p.header, lines, reading, key).None?
    ensures Value(p.header, Inserted(lines, section, added, p), reading, key)
         == Or(Value(p.header, lines, reading, key), if added then None else Value(p.header, p.extras, true, key))
    decreases |lines|
  {
    if lines != [] {
      var l := lines[0];
      assert lines == [l] + lines[1..];
      var leaving := Heading(l) && section;
      var put := if leaving && !added then p.extras else [];
      PlainAfter(p.header, put, reading, key);
      ValueCons(p.header, l, lines[1..], reading, key);
      InsertedPlain(lines[1..], Entered(l, section, p), Reading(p.header, l, reading), added || leaving, p, key);
      ValueInsert(p.header, put, l, Inserted(lines[1..], Entered(l, section, p), added || leaving, p), reading, key);
    }
  }

  lemma {:induction false} NothingInserted(lines: seq<string>, section: bool, p: Plan)
    ensures Inserted(lines, section, true, p) == lines
    decreases |lines|
  {
    if lines != [] { NothingInserted(lines[1..], Entered(lines[0], section, p), p); }
  }

  /** The lines from the first end of the section on. */
  function Later(lines: seq<string>, section: bool, p: Plan): seq<string>
    decreases |lines|
  {
    if lines == [] || (Heading(lines[0]) && section) then lines
    else Later(lines[1..], Entered(lines[0], section, p), p)
  }

  /** Without a lone `[`, a key that is set again after the section's first end keeps that value; any other is
      what the added lines give it, or what it was. */
  lemma {:induction false} InsertedValue(lines: seq<string>, section: bool, p: Plan, key: string)
    requires KeyOk(p) && "[" !in lines && (section || HasSection(lines, p.header))
    ensures var later := Value(p.header, Later(lines, section, p), true, key);
      && Value(p.header, Inserted(lines, section, false, p), section, key)
         == Or(later, Or(Value(p.header, p.extras, true, key), Value(p.header, lines, section, key)))
      && (later.Some? ==> Value(p.header, lines, section, key) == later)
    decreases |lines|
  {
    if lines != [] {
      var l := lines[0];
      assert lines == [l] + lines[1..];
      if |l| == 1 { assert l == [l[0]]; }
      ValueCons(p.header, l, lines[1..], section, key);
      if Heading(l) && section {
        NothingInserted(lines[1..], Entered(l, section, p), p);
        ValueInsert(p.header, p.extras, l, lines[1..], section, key);
      } else {
        InsertedValue(lines[1..], Entered(l, section, p), p, key);
        var rest := Inserted(lines[1..], Entered(l, section, p), false, p);
        assert Inserted(lines, section, false, p) == [l] + rest;
        ValueCons(p.header, l, rest, section, key);
      }
    }
  }

  /** A key that the added lines set is set. */
  lemma {:induction false} InsertedHas(lines: seq<string>, section: bool, reading: bool, p: Plan, key: string)
    requires KeyOk(p) && (section ==> reading) && (section || HasSection(lines, p.header))
    requires Value(p.header, p.extras, true, key).Some?
    ensures Value(p.header, Inserted(lines, section, false, p), reading, key).Some?
    decreases |lines|
  {
    if lines != [] {
      var l := lines[0];
      assert lines == [l] + lines[1..];
      var leaving := Heading(l) && section;
      var put := if leaving then p.extras else [];
      ValueInsert(p.header, put, l, Inserted(lines[1..], Entered(l, section, p), leaving, p), reading, key);
      if !leaving { InsertedHas(lines[1..], Entered(l, section, p), Reading(p.header, l, reading), p, key); }
    }
  }

  lemma {:induction false} RewriteOneLiners(
      lines: seq<string>, section: bool, changed: bool, added: bool, p: Plan)
    requires OneLiners(lines) && PlanOk(p)
    ensures OneLiners(Rewrite(lines, section, changed, added, p))
    decreases |lines|
  {
    SetLineIs(p);
    if lines != [] {
      assert lines[0] in lines && lines == [lines[0]] + lines[1..];
      var leaving := Heading(lines[0]) && section;
      var section' := if Heading(lines[0]) then lines[0] == p.header else section;
      RewriteOneLiners(lines[1..], section', true, added || leaving, p);
      RewriteOneLiners(lines[1..], section', changed || leaving, added || leaving, p);
    }
  }

  lemma {:induction false} RewriteKeepsHeader(
      lines: seq<string>, section: bool, changed: bool, added: bool, p: Plan)
    requires KeyOk(p) && HasSection(lines, p.header)
    ensures HasSection(Rewrite(lines, section, changed, added, p), p.header)
    decreases |lines|
  {
    var l := lines[0];
    assert lines == [l] + lines[1..];
    if Heading(l) { HeadingSetsNothing(l, p); }
    if section && Assigns(l, p.key) {
      RewriteSet(lines, section, changed, added, p);
      RewriteKeepsHeader(lines[1..], section, true, added, p);
    } else {
      var leaving := Heading(l) && section;
      RewriteCopied(lines, section, changed, added, p);
      if l != p.header {
        RewriteKeepsHeader(lines[1..], Entered(l, section, p), changed || leaving, added || leaving, p);
      }
    }
  }

  // ----- a second pass -----

  /** The number of lines for the key that the rewriter finds in the section. */
  function Marked(p: Plan, lines: seq<string>, section: bool): nat
    decreases |lines|
  {
    if lines == [] then 0
    else
      var section' := Entered(lines[0], section, p);
      (if section' && Assigns(lines[0], p.key) then 1 else 0) + Marked(p, lines[1..], section')
  }

  /** Whether the rewriter is in the section after the lines. */
  function Ending(p: Plan, lines: seq<string>, section: bool): bool
    decreases |lines|
  {
    if lines == [] then section else Ending(p, lines[1..], Entered(lines[0], section, p))
  }

  lemma MarkedCons(p: Plan, l: string, lines: seq<string>, section: bool)
    ensures var section' := Entered(l, section, p);
      Marked(p, [l] + lines, section) == (if section' && Assigns(l, p.key) then 1 else 0) + Marked(p, lines, section')
    ensures Ending(p, [l] + lines, section) == Ending(p, lines, Entered(l, section, p))
  {
    assert ([l] + lines)[1..] == lines;
  }

  lemma {:induction false} MarkedConcat(p: Plan, xs: seq<string>, ys: seq<string>, section: bool)
    ensures Marked(p, xs + ys, section) == Marked(p, xs, section) + Marked(p, ys, Ending(p, xs, section))
    decreases |xs|
  {
    if xs == [] {
      assert xs + ys == ys;
    } else {
      assert xs + ys == [xs[0]] + (xs[1..] + ys) && xs == [xs[0]] + xs[1..];
      MarkedCons(p, xs[0], xs[1..] + ys, section);
      MarkedConcat(p, xs[1..], ys, Entered(xs[0], section, p));
    }
  }

  lemma MarkedPending(p: Plan, changed: bool, added: bool)
    requires KeyOk(p)
    ensures Marked(p, Pending(p, changed, added), true)
         == (if changed then 0 else 1) + (if added then 0 else Marked(p, p.extras, true))
  {
    SetLineIs(p);
    if !changed { MarkedCons(p, SetLine(p), if added then [] else p.extras, true); }
    assert changed ==> Pending(p, changed, added) == if added then [] else p.extras;
  }

  lemma {:induction false} TameUnmarked(p: Plan, lines: seq<string>, section: bool)
    requires forall l :: l in lines ==> !Assigns(l, p.key)
    ensures Marked(p, lines, section) == 0
    decreases |lines|
  {
    if lines != [] {
      assert lines[0] in lines;
      TameUnmarked(p, lines[1..], Entered(lines[0], section, p));
    }
  }

  /** Of the lines for the key a rewrite leaves one, besides those it adds. */
  lemma {:induction false} MarkedRewrite(lines: seq<string>, section: bool, changed: bool, added: bool, p: Plan)
    requires KeyOk(p) && ((changed && added) || section || HasSection(lines, p.header))
    ensures Marked(p, Rewrite(lines, section, changed, added, p), section)
         == (if changed then 0 else 1) + (if added then 0 else Marked(p, p.extras, true))
    decreases |lines|
  {
    if lines == [] {
      if section { MarkedPending(p, changed, added); }
    } else {
      var l := lines[0];
      assert lines == [l] + lines[1..];
      if Heading(l) { HeadingSetsNothing(l, p); }
      if section && Assigns(l, p.key) {
        MarkedRewrite(lines[1..], section, true, added, p);
        var rest := Rewrite(lines[1..], section, true, added, p);
        RewriteSet(lines, section, changed, added, p);
        SetLineIs(p);
        MarkedPending(p, changed, true);
        MarkedConcat(p, Pending(p, changed, true), rest, true);
        PlainEnding(p, Pending(p, changed, true), true);
      } else {
        var leaving := Heading(l) && section;
        MarkedRewrite(lines[1..], Entered(l, section, p), changed || leaving, added || leaving, p);
        MarkedPending(p, changed, added);
        MarkedCopied(lines, section, changed, added, p);
      }
    }
  }

  lemma {:induction false} PlainEnding(p: Plan, lines: seq<string>, section: bool)
    requires Plain(lines)
    ensures Ending(p, lines, section) == section
    decreases |lines|
  {
    if lines != [] {
      assert lines[0] in lines;
      PlainEnding(p, lines[1..], section);
    }
  }

  lemma MarkedCopied(lines: seq<string>, section: bool, changed: bool, added: bool, p: Plan)
    requires KeyOk(p) && lines != [] && !(Entered(lines[0], section, p) && Assigns(lines[0], p.key))
    ensures var leaving := Heading(lines[0]) && section;
      Marked(p, Rewrite(lines, section, changed, added, p), section)
      == (if leaving then Marked(p, Pending(p, changed, added), true) else 0)
       + Marked(p, Rewrite(lines[1..], Entered(lines[0], section, p), changed || leaving, added || leaving, p),
                Entered(lines[0], section, p))
  {
    var l, leaving := lines[0], Heading(lines[0]) && section;
    var rest := Rewrite(lines[1..], Entered(l, section, p), changed || leaving, added || leaving, p);
    var pre := if leaving then Pending(p, changed, added) else [];
    RewriteCopied(lines, section, changed, added, p);
    MarkedConcat(p, pre, [l] + rest, section);
    MarkedCons(p, l, rest, Ending(p, pre, section));
  }

  /** With the key set and nothing to add, lines without one for the key pass through. */
  lemma {:induction false} PassThrough(lines: seq<string>, section: bool, added: bool, p: Plan)
    requires Marked(p, lines, section) == 0 && p.extras == []
    ensures Rewrite(lines, section, true, added, p) == lines
    decreases |lines|
  {
    if lines != [] {
      var l := lines[0];
      assert lines == [l] + lines[1..];
      RewriteCopied(lines, section, true, added, p);
      PassThrough(lines[1..], Entered(l, section, p), added || (Heading(l) && section), p);
      assert Pending(p, true, added) == [];
    }
  }

  lemma StartsSet(rest: seq<string>, added: bool, p: Plan)
    requires KeyOk(p) && Marked(p, [SetLine(p)] + rest, true) == 1 && p.extras == []
    ensures Rewrite([SetLine(p)] + rest, true, false, added, p) == [SetLine(p)] + rest
  {
    var lines := [SetLine(p)] + rest;
    SetLineIs(p);
    MarkedCons(p, SetLine(p), rest, true);
    assert lines[0] == SetLine(p) && lines[1..] == rest;
    RewriteSet(lines, true, false, added, p);
    PassThrough(rest, true, added, p);
    assert Pending(p, false, true) == [SetLine(p)];
  }

  /** What was rewritten, with one line for the key in the section, is rewritten to itself. */
  lemma {:induction false} RewriteAgain(
      lines: seq<string>, section: bool, changed: bool, added: bool, added2: bool, p: Plan, q: Plan)
    requires KeyOk(p) && ((changed && added) || section || HasSection(lines, p.header))
    requires q == p.(extras := []) && (added || Marked(p, p.extras, true) == 0)
    ensures var out := Rewrite(lines, section, changed, added, p); Rewrite(out, section, changed, added2, q) == out
    decreases |lines|
  {
    var out := Rewrite(lines, section, changed, added, p);
    MarkedRewrite(lines, section, changed, added, p);
    MarkedSame(p, q, out, section);
    if changed {
      PassThrough(out, section, added2, q);
    } else if lines == [] || (section && (Heading(lines[0]) || Assigns(lines[0], p.key))) {
      SetFirst(lines, added, p);
      StartsSet(out[1..], added2, q);
    } else {
      var l, section' := lines[0], Entered(lines[0], section, p);
      assert lines == [l] + lines[1..];
      if Heading(l) { HeadingSetsNothing(l, p); }
      RewriteAgain(lines[1..], section', false, added, added2, p, q);
      RewriteCopied(lines, section, false, added, p);
      assert out[0] == l && out[1..] == Rewrite(lines[1..], section', false, added, p);
      RewriteCopied(out, section, false, added2, q);
    }
  }

  /** Where the section ends, or at its first line for the key, the key is set. */
  lemma SetFirst(lines: seq<string>, added: bool, p: Plan)
    requires KeyOk(p) && (lines == [] || Heading(lines[0]) || Assigns(lines[0], p.key))
    ensures var out := Rewrite(lines, true, false, added, p); out != [] && out == [SetLine(p)] + out[1..]
  {
    assert Pending(p, false, added)[0] == SetLine(p);
    if lines != [] && !Heading(lines[0]) { RewriteSet(lines, true, false, added, p); }
    if lines != [] && Heading(lines[0]) {
      HeadingSetsNothing(lines[0], p);
      RewriteCopied(lines, true, false, added, p);
    }
  }

  lemma {:induction false} MarkedSame(p: Plan, q: Plan, lines: seq<string>, section: bool)
    requires p.header == q.header && p.key == q.key
    ensures Marked(p, lines, section) == Marked(q, lines, section)
    decreases |lines|
  {
    if lines != [] { MarkedSame(p, q, lines[1..], Entered(lines[0], section, p)); }
  }

  /** The number of lines for the key, in the section or out of it. */
  function Keys(p: Plan, lines: seq<string>): nat {
    if lines == [] then 0 else (if Assigns(lines[0], p.key) then 1 else 0) + Keys(p, lines[1..])
  }

  lemma {:induction false} KeysConcat(p: Plan, xs: seq<string>, ys: seq<string>)
    ensures Keys(p, xs + ys) == Keys(p, xs) + Keys(p, ys)
  {
    if xs == [] {
      assert xs + ys == ys;
    } else {
      KeysConcat(p, xs[1..], ys);
      assert (xs + ys)[1..] == xs[1..] + ys;
    }
  }

  lemma {:induction false} NoKeys(p: Plan, lines: seq<string>)
    requires forall l :: l in lines ==> !Assigns(l, p.key)
    ensures Keys(p, lines) == 0
  {
    if lines != [] {
      assert lines[0] in lines;
      NoKeys(p, lines[1..]);
    }
  }

  lemma KeysPending(p: Plan, changed: bool, added: bool)
    requires KeyOk(p) && Tame(p)
    ensures Keys(p, Pending(p, changed, added)) == if changed then 0 else 1
  {
    NoKeys(p, p.extras);
    SetLineIs(p);
    var first := if changed then [] else [SetLine(p)];
    KeysConcat(p, first, if added then [] else p.extras);
    var none: seq<string> := [];
    assert [SetLine(p)][1..] == none;
  }

  /** A rewrite replaces the marked lines by one and adds its own. */
  lemma {:induction false} CountRewrite(lines: seq<string>, section: bool, changed: bool, added: bool, p: Plan)
    requires KeyOk(p) && Tame(p)
    ensures var out := Rewrite(lines, section, changed, added, p);
      && Keys(p, out) + Marked(p, lines, section) == Keys(p, lines) + (if changed then 0 else 1)
      && |out| + Marked(p, lines, section) == |lines| + |Pending(p, changed, added)|
    decreases |lines|
  {
    KeysPending(p, changed, added);
    if lines != [] {
      var l := lines[0];
      if Heading(l) { HeadingSetsNothing(l, p); }
      if section && Assigns(l, p.key) {
        CountRewrite(lines[1..], section, true, added, p);
        RewriteSet(lines, section, changed, added, p);
        KeysPending(p, changed, true);
        KeysConcat(p, Pending(p, changed, true), Rewrite(lines[1..], section, true, added, p));
      } else {
        var leaving := Heading(l) && section;
        CountRewrite(lines[1..], Entered(l, section, p), changed || leaving, added || leaving, p);
        CountCopied(lines, section, changed, added, p);
      }
    }
  }

  lemma CountCopied(lines: seq<string>, section: bool, changed: bool, added: bool, p: Plan)
    requires KeyOk(p) && lines != [] && !(Entered(lines[0], section, p) && Assigns(lines[0], p.key))
    ensures var l, leaving := lines[0], Heading(lines[0]) && section;
      var out, pre := Rewrite(lines, section, changed, added, p), if leaving then Pending(p, changed, added) else [];
      var rest := Rewrite(lines[1..], Entered(l, section, p), changed || leaving, added || leaving, p);
      && Keys(p, out) == Keys(p, pre) + (if Assigns(l, p.key) then 1 else 0) + Keys(p, rest)
      && |out| == |pre| + 1 + |rest|
  {
    var l, leaving := lines[0], Heading(lines[0]) && section;
    var pre := if leaving then Pending(p, changed, added) else [];
    var rest := Rewrite(lines[1..], Entered(l, section, p), changed || leaving, added || leaving, p);
    RewriteCopied(lines, section, changed, added, p);
    KeysConcat(p, pre, [l] + rest);
    assert ([l] + rest)[1..] == rest;
  }

  /** Rewriting what was rewritten, for the same key and value, changes nothing exactly when the lines
      added first hold none for the key in the section and no more are to be added. */
  lemma AgainExact(lines: seq<string>, p: Plan, q: Plan)
    requires KeyOk(p) && HasSection(lines, p.header) && q == p.(extras := q.extras) && Tame(q)
    ensures var out := Rewrite(lines, false, false, false, p);
      Rewrite(out, false, false, false, q) == out <==> Marked(p, p.extras, true) == 0 && q.extras == []
  {
    var out := Rewrite(lines, false, false, false, p);
    if Marked(p, p.extras, true) == 0 && q.extras == [] {
      RewriteAgain(lines, false, false, false, false, p, q);
    }
    if Rewrite(out, false, false, false, q) == out {
      CountRewrite(out, false, false, false, q);
      MarkedRewrite(lines, false, false, false, p);
      MarkedSame(p, q, out, false);
    }
  }

  // ----- the text, piece by piece -----

  function ExtrasText(p: Plan, added: bool): string { if added then "" else Text(p.extras) }

  function SetText(p: Plan, changed: bool): string { if changed then "" else SetLine(p) + "\n" }

  lemma PendingText(p: Plan, changed: bool, added: bool)
    ensures Text(Pending(p, changed, added)) == SetText(p, changed) + ExtrasText(p, added)
  {
    var l := SetLine(p);
    var none: seq<string> := [];
    TextConcat(if changed then [] else [l], if added then [] else p.extras);
    assert [l][1..] == none;
    assert Text([l]) == l + "\n";
  }

  /** A heading or other line that is copied. */
  lemma TextStepCopied(l: string, rest: seq<string>, section: bool, changed: bool, added: bool, p: Plan)
    requires !(Entered(l, section, p) && Assigns(l, p.key))
    ensures var leaving := Heading(l) && section;
      Text(Rewrite([l] + rest, section, changed, added, p))
      == (if leaving then SetText(p, changed) + ExtrasText(p, added) else "") + l + "\n"
       + Text(Rewrite(rest, Entered(l, section, p), changed || leaving, added || leaving, p))
  {
    var leaving := Heading(l) && section;
    var after := Rewrite(rest, Entered(l, section, p), changed || leaving, added || leaving, p);
    var pre := if leaving then Pending(p, changed, added) else [];
    assert ([l] + rest)[1..] == rest && ([l] + rest)[0] == l;
    assert Rewrite([l] + rest, section, changed, added, p) == pre + ([l] + after);
    PendingText(p, changed, added);
    TextCopied(pre, l, after);
  }

  lemma TextCopied(pre: seq<string>, l: string, after: seq<string>)
    ensures Text(pre + ([l] + after)) == Text(pre) + l + "\n" + Text(after)
  {
    TextConcat(pre, [l] + after);
    assert ([l] + after)[1..] == after;
    assert Text(pre) + (l + "\n" + Text(after)) == Text(pre) + l + "\n" + Text(after);
  }

  /** A line of the section for the key: the first is replaced, later ones are dropped. */
  lemma TextStepSet(l: string, rest: seq<string>, section: bool, changed: bool, added: bool, p: Plan)
    requires section && !Heading(l) && Assigns(l, p.key)
    ensures Text(Rewrite([l] + rest, section, changed, added, p))
      == SetText(p, changed) + Text(Rewrite(rest, section, true, added, p))
  {
    var after := Rewrite(rest, section, true, added, p);
    var put := if changed then [] else [SetLine(p)];
    assert ([l] + rest)[1..] == rest && ([l] + rest)[0] == l;
    assert Rewrite([l] + rest, section, changed, added, p) == put + after;
    TextConcat(put, after);
    PendingText(p, changed, true);
    assert Pending(p, changed, true) == put;
  }

  /** What is written for one line. */
  function Piece(l: string, section: bool, changed: bool, added: bool, p: Plan): string {
    if Heading(l) then (if section then SetText(p, changed) + ExtrasText(p, added) else "") + l + "\n"
    else if section && Assigns(l, p.key) then SetText(p, changed)
    else l + "\n"
  }

  lemma Advance(l: string, rest: seq<string>, section: bool, changed: bool, added: bool, p: Plan)
    requires KeyOk(p)
    ensures var leaving := Heading(l) && section;
      Text(Rewrite([l] + rest, section, changed, added, p))
      == Piece(l, section, changed, added, p)
       + Text(Rewrite(rest, Entered(l, section, p),
                      changed || leaving || (section && !Heading(l) && Assigns(l, p.key)), added || leaving, p))
  {
    if Heading(l) { HeadingSetsNothing(l, p); }
    if section && Assigns(l, p.key) {
      TextStepSet(l, rest, section, changed, added, p);
    } else {
      TextStepCopied(l, rest, section, changed, added, p);
    }
  }

  lemma Regroup(a: string, b: string, c: string)
    ensures a + (b + c) == a + b + c
  {
  }
}
