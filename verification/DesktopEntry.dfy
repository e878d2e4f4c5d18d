/** The desktop-entry reader and rewriter of src/platform/daemon_autostart.c. */
module DesktopEntry {
  import opened Common
  import opened EntryLines
  import opened EntryReader
  import opened EntryRewrite
  import opened EntryWriter

  const HEADER := "[Desktop Entry]"
  const HIDDEN := "Hidden"

  /** What the reader finds for a key. */
  function Read(source: string, key: string): Option<string> { Value(HEADER, Lines(source), false, key) }

  function MakePlan(source: string, hidden: bool, exe: string): Plan {
    Plan(HEADER, HIDDEN, if hidden then "true" else "false",
         Extra(source, hidden, exe, "Type") + Extra(source, hidden, exe, "Name") + Extra(source, hidden, exe, "Exec"))
  }

  /** What an added line sets its key to. */
  function Default(key: string, exe: string): string {
    if key == "Type" then "Application"
    else if key == "Name" then "Core Download Manager Daemon"
    else exe + " daemon"
  }

  /** What is added for a missing key, as the lines it makes: the program's path may hold line breaks. */
  function Extra(source: string, hidden: bool, exe: string, key: string): seq<string> {
    if Needs(source, hidden, key) then Lines(key + "=" + Default(key, exe) + "\n") else []
  }

  predicate Needs(source: string, hidden: bool, key: string) {
    !hidden && Read(source, key).None?
  }

  /** The rewritten entry. */
  function Rewritten(source: string, hidden: bool, exe: string): string {
    Text(Rewrite(Lines(source), false, false, false, MakePlan(source, hidden, exe)))
  }

  /** When the rewrite succeeds: the entry has its section, the program's path is known if it is
      needed, and the result fits. */
  predicate Succeeds(source: string, hidden: bool, exe: string, capacity: nat) {
    && HasSection(Lines(source), HEADER)
    && (Needs(source, hidden, "Exec") ==> exe != "" && exe[0] == '/')
    && |Rewritten(source, hidden, exe)| < capacity
  }

  /** Without an absolute path for a missing Exec, or without its section, an entry cannot be enabled; hiding asks
      for the section only, and for room. */
  lemma WhenItFails(source: string, exe: string, capacity: nat)
    ensures Read(source, "Exec").None? && !(exists rest :: exe == "/" + rest) ==> !Succeeds(source, false, exe, capacity)
    ensures "[Desktop Entry]" !in Lines(source) ==> !Succeeds(source, true, exe, capacity) && !Succeeds(source, false, exe, capacity)
    ensures "[Desktop Entry]" in Lines(source) ==>
      (Succeeds(source, true, exe, capacity) <==> |Rewritten(source, true, exe)| < capacity)
  {
    if exe != "" && exe[0] == '/' { assert exe == "/" + exe[1..]; }
  }

  // ----- the rewritten lines -----

  lemma ExtraOneLiners(source: string, hidden: bool, exe: string, key: string)
    ensures OneLiners(Extra(source, hidden, exe, key))
  {
    LinesAreOneLiners(key + "=" + Default(key, exe) + "\n");
  }

  lemma KeyIsOk(p: Plan)
    requires p.header == HEADER && p.key == HIDDEN && p.value in {"true", "false"}
    ensures KeyOk(p) && '\n' !in p.value
  {
  }

  lemma MakePlanOk(source: string, hidden: bool, exe: string)
    ensures PlanOk(MakePlan(source, hidden, exe))
    ensures var p := MakePlan(source, hidden, exe);
      p.header == HEADER && p.key == HIDDEN && p.value == if hidden then "true" else "false"
  {
    ExtraOneLiners(source, hidden, exe, "Type");
    ExtraOneLiners(source, hidden, exe, "Name");
    ExtraOneLiners(source, hidden, exe, "Exec");
    KeyIsOk(MakePlan(source, hidden, exe));
  }

  lemma RewrittenLines(source: string, hidden: bool, exe: string)
    ensures Lines(Rewritten(source, hidden, exe))
         == Rewrite(Lines(source), false, false, false, MakePlan(source, hidden, exe))
  {
    MakePlanOk(source, hidden, exe);
    LinesAreOneLiners(source);
    RewriteOneLiners(Lines(source), false, false, false, MakePlan(source, hidden, exe));
    LinesOfText(Rewrite(Lines(source), false, false, false, MakePlan(source, hidden, exe)));
  }

  /** The entry with the added lines where its section first ends. */
  function WithExtras(source: string, hidden: bool, exe: string): seq<string> {
    Inserted(Lines(source), false, false, MakePlan(source, hidden, exe))
  }

  /** Where the program's path is used, it has no line break. */
  predicate OneLine(source: string, hidden: bool, exe: string) {
    Needs(source, hidden, "Exec") ==> '\n' !in exe
  }

  lemma ExtraLine(source: string, hidden: bool, exe: string, key: string)
    requires key in {"Type", "Name", "Exec"} && (key == "Exec" ==> OneLine(source, hidden, exe))
    ensures Extra(source, hidden, exe, key)
         == if Needs(source, hidden, key) then [key + "=" + Default(key, exe)] else []
  {
    if Needs(source, hidden, key) {
      var none: seq<string> := [];
      var l := key + "=" + Default(key, exe);
      assert '\n' !in Default(key, exe);
      LinesCons(l, "");
      assert l + "\n" + "" == l + "\n" && Lines("") == none;
    }
  }

  lemma NotHidden(l: string)
    requires |l| > 0 && l[0] != 'H'
    ensures !Assigns(l, HIDDEN)
  {
    if |l| >= 7 { assert l[..7][0] == l[0]; }
  }

  /** A path of one line adds plain assignments of other keys. */
  lemma OneLineIsTame(source: string, hidden: bool, exe: string)
    requires OneLine(source, hidden, exe)
    ensures Tame(MakePlan(source, hidden, exe))
  {
    ExtraIsTame(source, hidden, exe, "Type");
    ExtraIsTame(source, hidden, exe, "Name");
    ExtraIsTame(source, hidden, exe, "Exec");
  }

  lemma ExtraIsTame(source: string, hidden: bool, exe: string, key: string)
    requires key in {"Type", "Name", "Exec"} && (key == "Exec" ==> OneLine(source, hidden, exe))
    ensures Plain(Extra(source, hidden, exe, key))
    ensures forall l :: l in Extra(source, hidden, exe, key) ==> !Assigns(l, HIDDEN)
  {
    ExtraLine(source, hidden, exe, key);
    KeyLine(key, Default(key, exe));
  }

  lemma KeyLine(key: string, v: string)
    requires key in {"Type", "Name", "Exec"}
    ensures !Heading(key + "=" + v) && !Assigns(key + "=" + v, HIDDEN)
  {
    var l := key + "=" + v;
    assert l[0] == key[0];
    NotHidden(l);
  }

  // ----- the Hidden value -----

  /** After a rewrite the reader reports the requested Hidden value exactly when no line casts a shadow with
      another: a Hidden line after a lone `[`, or one among the lines of the program's path. */
  lemma HiddenIsRequested(source: string, hidden: bool, exe: string)
    requires HasSection(Lines(source), HEADER)
    ensures var wanted := if hidden then "true" else "false";
      Read(Rewritten(source, hidden, exe), HIDDEN) == Some(wanted)
      <==> Shadow(MakePlan(source, hidden, exe), Lines(source), false, false, false) in {None, Some(wanted)}
  {
    RewrittenLines(source, hidden, exe);
    MakePlanOk(source, hidden, exe);
    SetFor(Lines(source), MakePlan(source, hidden, exe));
  }

  lemma SetFor(lines: seq<string>, p: Plan)
    requires KeyOk(p) && HasSection(lines, p.header)
    ensures Value(p.header, Rewrite(lines, false, false, false, p), false, p.key) == Some(p.value)
      <==> Shadow(p, lines, false, false, false) in {None, Some(p.value)}
  {
    SetKeyAfter(lines, false, false, false, false, p);
  }

  /** With a path of one line only the lines after a lone `[` can cast it. */
  lemma OneLineShadow(source: string, hidden: bool, exe: string)
    requires OneLine(source, hidden, exe)
    ensures var p := MakePlan(source, hidden, exe);
      Shadow(p, Lines(source), false, false, false) == Shadow(p.(extras := []), Lines(source), false, false, false)
  {
    OneLineIsTame(source, hidden, exe);
    TameShadow(MakePlan(source, hidden, exe), Lines(source), false, false, false);
  }

  /** Without a lone `[` it is what the added lines assign. */
  lemma AddedShadow(source: string, hidden: bool, exe: string)
    requires HasSection(Lines(source), HEADER) && "[" !in Lines(source)
    ensures var p := MakePlan(source, hidden, exe);
      Shadow(p, Lines(source), false, false, false) == Value(HEADER, p.extras, true, HIDDEN)
  {
    MakePlanOk(source, hidden, exe);
    NoLoneBracketNoShadow(MakePlan(source, hidden, exe), Lines(source), false, false);
  }

  /** A concrete entry that stays visible although hiding it succeeds. */
  lemma LoneBracketShadows()
    ensures var source := Text([HEADER, "[", HIDDEN + "=" + "false"]);
      && HasSection(Lines(source), HEADER)
      && (exists capacity: nat :: Succeeds(source, true, "", capacity))
      && Read(Rewritten(source, true, ""), HIDDEN) == Some("false")
  {
    var lines := [HEADER, "[", HIDDEN + "=" + "false"];
    var p := MakePlan(Text(lines), true, "");
    assert lines[0] in lines;
    LinesOfText(lines);
    ShadowAfterBracket(p, "false");
    RewrittenLines(Text(lines), true, "");
    SetKeyAfter(lines, false, false, false, false, p);
    assert Succeeds(Text(lines), true, "", |Rewritten(Text(lines), true, "")| + 1);
  }

  // ----- the other keys -----

  lemma OneLineValue(source: string, hidden: bool, exe: string, key: string)
    requires '=' !in key && OneLine(source, hidden, exe)
    ensures Value(HEADER, MakePlan(source, hidden, exe).extras, true, key)
         == if key in {"Type", "Name", "Exec"} && Needs(source, hidden, key) then Some(Default(key, exe)) else None
  {
    ExtraValue(source, hidden, exe, "Type", key);
    ExtraValue(source, hidden, exe, "Name", key);
    ExtraValue(source, hidden, exe, "Exec", key);
    ExtrasConcat(source, hidden, exe, key);
  }

  lemma ExtraValue(source: string, hidden: bool, exe: string, k: string, key: string)
    requires '=' !in key && k in {"Type", "Name", "Exec"} && (k == "Exec" ==> OneLine(source, hidden, exe))
    ensures Value(HEADER, Extra(source, hidden, exe, k), true, key)
         == if key == k && Needs(source, hidden, k) then Some(Default(k, exe)) else None
    ensures After(HEADER, Extra(source, hidden, exe, k), true)
  {
    ExtraLine(source, hidden, exe, k);
    OneValue(HEADER, k, Default(k, exe), true, key);
  }

  lemma ExtrasConcat(source: string, hidden: bool, exe: string, key: string)
    requires '=' !in key
    ensures Value(HEADER, MakePlan(source, hidden, exe).extras, true, key)
         == Or(Value(HEADER, Extra(source, hidden, exe, "Exec"), true, key),
               Or(Value(HEADER, Extra(source, hidden, exe, "Name"), true, key),
                  Value(HEADER, Extra(source, hidden, exe, "Type"), true, key)))
  {
    var a, b := Extra(source, hidden, exe, "Type"), Extra(source, hidden, exe, "Name");
    ExtraValue(source, hidden, exe, "Type", key);
    ExtraValue(source, hidden, exe, "Name", key);
    ValueConcat(HEADER, a + b, Extra(source, hidden, exe, "Exec"), true, key);
    ValueConcat(HEADER, a, b, true, key);
  }

  /** Whatever the program's path, every other key reads as in the entry with the added lines. */
  lemma OtherKeysRead(source: string, hidden: bool, exe: string, key: string)
    requires key != HIDDEN && '=' !in key
    ensures Read(Rewritten(source, hidden, exe), key) == Value(HEADER, WithExtras(source, hidden, exe), false, key)
  {
    RewrittenLines(source, hidden, exe);
    MakePlanOk(source, hidden, exe);
    OtherAfter(Lines(source), false, false, false, false, MakePlan(source, hidden, exe), key);
  }

  /** With a path of one line the rewrite leaves every other key that is present as it was, and adds only a
      missing Type, Name or Exec, only when enabling. */
  lemma OtherKeysKept(source: string, hidden: bool, exe: string, key: string)
    requires OneLine(source, hidden, exe) && HasSection(Lines(source), HEADER) && key != HIDDEN && '=' !in key
    ensures Read(Rewritten(source, hidden, exe), key)
         == Or(Read(source, key),
               if !hidden && key in {"Type", "Name", "Exec"} then Some(Default(key, exe)) else None)
  {
    OtherKeysRead(source, hidden, exe, key);
    OneLineIsTame(source, hidden, exe);
    OneLineValue(source, hidden, exe, key);
    MakePlanOk(source, hidden, exe);
    InsertedPlain(Lines(source), false, false, false, MakePlan(source, hidden, exe), key);
  }

  /** Whatever the path, in an entry without a lone `[` a key reads as before exactly when it is set again
      after the section's first end, or the added lines give it no other value. */
  lemma OtherKeyExact(source: string, hidden: bool, exe: string, key: string)
    requires HasSection(Lines(source), HEADER) && "[" !in Lines(source) && key != HIDDEN && '=' !in key
    ensures var p := MakePlan(source, hidden, exe);
      Read(Rewritten(source, hidden, exe), key) == Read(source, key)
      <==> Value(HEADER, Later(Lines(source), false, p), true, key).Some?
           || Value(HEADER, p.extras, true, key) in {None, Read(source, key)}
  {
    OtherKeysRead(source, hidden, exe, key);
    MakePlanOk(source, hidden, exe);
    InsertedValue(Lines(source), false, MakePlan(source, hidden, exe), key);
  }

  /** An entry of nothing but its heading, hidden and enabled. */
  lemma BareEntry(source: string, exe: string)
    requires source == "[Desktop Entry]\n" && '\n' !in exe
    ensures Rewritten(source, true, exe) == "[Desktop Entry]\n" + ("Hidden=true\n" + "")
    ensures Rewritten(source, false, exe)
         == "[Desktop Entry]\n" + ("Hidden=false\n"
          + ("Type=Application\n" + "Name=Core Download Manager Daemon\n" + ("Exec=" + exe + " daemon\n")))
  {
    BareLines(source);
    BareText(source, true, exe);
    BareText(source, false, exe);
    HiddenTexts();
    NothingToAdd(source, exe);
    EverythingToAdd(source, exe);
  }

  lemma BareLines(source: string)
    requires source == "[Desktop Entry]\n"
    ensures Lines(source) == [HEADER] && source == Text([HEADER]) == "[Desktop Entry]\n"
  {
    var none: seq<string> := [];
    assert [HEADER][1..] == none;
    assert HEADER + "\n" + "" == source;
    LinesOfText([HEADER]);
  }

  lemma BareText(source: string, hidden: bool, exe: string)
    requires Lines(source) == [HEADER]
    ensures var p := MakePlan(source, hidden, exe);
      Rewritten(source, hidden, exe) == Text([HEADER]) + (SetLine(p) + "\n" + Text(p.extras))
  {
    var p := MakePlan(source, hidden, exe);
    MakePlanOk(source, hidden, exe);
    var none: seq<string> := [];
    assert [HEADER][1..] == none;
    assert Rewrite(none, true, false, false, p) == [SetLine(p)] + p.extras;
    assert Rewrite([HEADER], false, false, false, p) == [HEADER] + ([SetLine(p)] + p.extras);
    TextConcat([HEADER], [SetLine(p)] + p.extras);
    TextConcat([SetLine(p)], p.extras);
    assert [SetLine(p)][1..] == none;
    assert Text([SetLine(p)]) == SetLine(p) + "\n" + "";
  }

  lemma HiddenTexts()
    ensures HIDDEN + "=" + "true" + "\n" == "Hidden=true\n" && HIDDEN + "=" + "false" + "\n" == "Hidden=false\n"
  {
  }

  lemma NothingToAdd(source: string, exe: string)
    ensures Text(MakePlan(source, true, exe).extras) == ""
  {
    ExtrasTextParts(source, true, exe);
    ExtraText(source, true, exe, "Type");
    ExtraText(source, true, exe, "Name");
    ExtraText(source, true, exe, "Exec");
  }

  lemma EverythingToAdd(source: string, exe: string)
    requires source == Text([HEADER])
    ensures Text(MakePlan(source, false, exe).extras)
         == "Type=Application\n" + "Name=Core Download Manager Daemon\n" + ("Exec=" + exe + " daemon\n")
  {
    ExtrasTextParts(source, false, exe);
    NeededText(source, exe, "Type");
    NeededText(source, exe, "Name");
    NeededText(source, exe, "Exec");
    DefaultTexts();
    assert "Exec" + "=" == "Exec=";
    Around("Exec=", exe, " daemon", "\n");
    assert " daemon" + "\n" == " daemon\n";
  }

  lemma Around(a: string, b: string, c: string, d: string)
    ensures a + (b + c) + d == a + b + (c + d)
  {
  }

  lemma NeededText(source: string, exe: string, key: string)
    requires source == Text([HEADER]) && key in {"Type", "Name", "Exec"}
    ensures Text(Extra(source, false, exe, key)) == key + "=" + Default(key, exe) + "\n"
  {
    JustHeading(key);
    ExtraText(source, false, exe, key);
  }

  lemma DefaultTexts()
    ensures "Type" + "=" + Default("Type", "") + "\n" == "Type=Application\n"
    ensures "Name" + "=" + Default("Name", "") + "\n" == "Name=Core Download Manager Daemon\n"
    ensures forall exe :: Default("Type", exe) == Default("Type", "") && Default("Name", exe) == Default("Name", "")
    ensures forall exe :: Default("Exec", exe) == exe + " daemon"
  {
    TypeText();
    NameText();
  }

  lemma TypeText()
    ensures "Type" + "=" + "Application" + "\n" == "Type=Application\n"
  {
  }

  lemma NameText()
    ensures "Name" + "=" + "Core Download Manager Daemon" + "\n" == "Name=Core Download Manager Daemon\n"
  {
  }

  /** Enabling an entry of nothing but its heading gives it the three keys. */
  lemma BareEntryGetsDefaults(exe: string)
    requires '\n' !in exe
    ensures var once := Rewritten(Text([HEADER]), false, exe);
      && Read(once, "Type") == Some("Application")
      && Read(once, "Name") == Some("Core Download Manager Daemon")
      && Read(once, "Exec") == Some(exe + " daemon")
  {
    DefaultGiven(exe, "Type");
    DefaultGiven(exe, "Name");
    DefaultGiven(exe, "Exec");
  }

  lemma DefaultGiven(exe: string, key: string)
    requires '\n' !in exe && key in {"Type", "Name", "Exec"}
    ensures Read(Rewritten(Text([HEADER]), false, exe), key) == Some(Default(key, exe))
  {
    JustHeading(key);
    assert '=' !in key && key != HIDDEN;
    OtherKeysKept(Text([HEADER]), false, exe, key);
  }

  // ----- a path with a line break -----

  /** What follows a line break in the program's path is a line of its own. */
  lemma BrokenExec(source: string, a: string, tail: string)
    requires Needs(source, false, "Exec") && '\n' !in a && '\n' !in tail
    ensures Extra(source, false, a + "\n" + tail, "Exec") == ["Exec" + "=" + a, tail + " daemon"]
  {
    var exe := a + "\n" + tail;
    TwoLines("Exec" + "=" + a, tail + " daemon");
    Regroup("Exec" + "=", a, "\n", tail, " daemon");
    assert Default("Exec", exe) == exe + " daemon";
  }

  lemma Regroup(e: string, a: string, n: string, tail: string, d: string)
    ensures e + (a + n + tail + d) + n == e + a + n + (tail + d + n)
  {
  }

  lemma TwoLines(first: string, second: string)
    requires '\n' !in first && '\n' !in second
    ensures Lines(first + "\n" + (second + "\n")) == [first, second]
  {
    var none: seq<string> := [];
    LinesCons(second, "");
    assert second + "\n" + "" == second + "\n" && Lines("") == none;
    LinesCons(first, second + "\n");
  }

  lemma BrokenValue(a: string, key: string, v: string)
    requires '=' !in key && key != "" && key[0] != '[' && '\n' !in key && '\n' !in a && '\n' !in v
    ensures Value(HEADER, ["Exec" + "=" + a, key + "=" + v], true, key) == Some(v)
  {
    OneValue(HEADER, key, v, true, key);
    ValueConcat(HEADER, ["Exec" + "=" + a], [key + "=" + v], true, key);
    OneValue(HEADER, "Exec", a, true, key);
    assert ["Exec" + "=" + a] + [key + "=" + v] == ["Exec" + "=" + a, key + "=" + v];
  }

  /** Such a line that assigns a key sets it for the reader, Hidden as any other: here in an entry of
      nothing but its heading. */
  lemma LineBreakSets(a: string, key: string, v: string)
    requires a != "" && a[0] == '/' && '=' !in key && key != "" && key[0] != '['
    requires '\n' !in a && '\n' !in key && '\n' !in v
    ensures var source, exe := Text([HEADER]), a + "\n" + key + "=" + v;
      && HasSection(Lines(source), HEADER)
      && (exists capacity: nat :: Succeeds(source, false, exe, capacity))
      && Read(Rewritten(source, false, exe), key) == Some(v + " daemon")
  {
    var source, exe := Text([HEADER]), a + "\n" + key + "=" + v;
    JustHeading(key);
    BrokenExtras(a, key, v);
    if key == HIDDEN {
      SetByExtras(exe, v + " daemon");
    } else {
      GivenByExtras(exe, key, v + " daemon");
    }
    assert exe[0] == '/';
    assert Succeeds(source, false, exe, |Rewritten(source, false, exe)| + 1);
  }

  lemma BrokenExtras(a: string, key: string, v: string)
    requires '=' !in key && key != "" && key[0] != '[' && '\n' !in a && '\n' !in key && '\n' !in v
    ensures Value(HEADER, MakePlan(Text([HEADER]), false, a + "\n" + key + "=" + v).extras, true, key) == Some(v + " daemon")
  {
    var source, exe := Text([HEADER]), a + "\n" + key + "=" + v;
    JustHeading("Exec");
    Joined(a + "\n", key, "=", v, " daemon");
    BrokenExec(source, a, key + "=" + v);
    BrokenValue(a, key, v + " daemon");
    ExtrasConcat(source, false, exe, key);
  }

  lemma Joined(a: string, k: string, e: string, v: string, d: string)
    ensures a + k + e + v == a + (k + e + v) && k + e + v + d == k + e + (v + d)
  {
  }

  lemma SetByExtras(exe: string, v: string)
    requires Value(HEADER, MakePlan(Text([HEADER]), false, exe).extras, true, HIDDEN) == Some(v)
    ensures Read(Rewritten(Text([HEADER]), false, exe), HIDDEN) == Some(v)
  {
    var source := Text([HEADER]);
    JustHeading(HIDDEN);
    AddedShadow(source, false, exe);
    RewrittenLines(source, false, exe);
    MakePlanOk(source, false, exe);
    SetKeyAfter(Lines(source), false, false, false, false, MakePlan(source, false, exe));
  }

  lemma GivenByExtras(exe: string, key: string, v: string)
    requires Value(HEADER, MakePlan(Text([HEADER]), false, exe).extras, true, key) == Some(v)
    requires key != HIDDEN && '=' !in key
    ensures Read(Rewritten(Text([HEADER]), false, exe), key) == Some(v)
  {
    var p := MakePlan(Text([HEADER]), false, exe);
    JustHeading(key);
    OtherKeysRead(Text([HEADER]), false, exe, key);
    InsertedAtEnd(p);
    ValueCons(HEADER, HEADER, p.extras, false, key);
  }

  lemma JustHeading(key: string)
    ensures Lines(Text([HEADER])) == [HEADER] && Read(Text([HEADER]), key) == None
    ensures HasSection(Lines(Text([HEADER])), HEADER) && "[" !in Lines(Text([HEADER]))
  {
    var none: seq<string> := [];
    assert [HEADER][1..] == none;
    LinesOfText([HEADER]);
    assert HEADER[0] == '[' && |HEADER| > 1 && HEADER in [HEADER];
    assert Value(HEADER, none, true, key) == None;
  }

  lemma InsertedAtEnd(p: Plan)
    requires p.header == HEADER
    ensures Inserted([HEADER], false, false, p) == [HEADER] + p.extras
  {
    var none: seq<string> := [];
    assert [HEADER][1..] == none;
    assert Inserted(none, true, false, p) == p.extras;
    assert none + ([HEADER] + p.extras) == [HEADER] + p.extras;
  }

  // ----- toggling twice -----

  /** The added lines hold no Hidden line that a rewrite would find in the section. */
  predicate Unmarked(source: string, hidden: bool, exe: string) {
    var p := MakePlan(source, hidden, exe); Marked(p, p.extras, true) == 0
  }

  /** The reader finds a key once the lines are added. */
  predicate Finds(source: string, hidden: bool, exe: string, key: string) {
    Value(HEADER, WithExtras(source, hidden, exe), false, key).Some?
  }

  /** Doing it twice, the second time even from another program path, is doing it once, exactly when the added
      lines hold no Hidden line and leave Type and Name to be found. */
  lemma ToggleTwiceExact(source: string, hidden: bool, exe: string, exe2: string)
    requires HasSection(Lines(source), HEADER)
    ensures Rewritten(Rewritten(source, hidden, exe), hidden, exe2) == Rewritten(source, hidden, exe)
      <==> (Unmarked(source, hidden, exe)
            && (hidden || (Finds(source, hidden, exe, "Type") && Finds(source, hidden, exe, "Name"))))
  {
    var once := Rewritten(source, hidden, exe);
    var p, q := MakePlan(source, hidden, exe), MakePlan(once, hidden, exe2);
    ExecStays(source, hidden, exe);
    OneLineIsTame(once, hidden, exe2);
    MakePlanOk(source, hidden, exe);
    RewrittenLines(source, hidden, exe);
    RewrittenLines(once, hidden, exe2);
    AgainExact(Lines(source), p, q);
    NothingAdded(source, hidden, exe, exe2);
    assert Rewritten(once, hidden, exe2) == once ==> Lines(Rewritten(once, hidden, exe2)) == Lines(once);
  }

  lemma NothingAdded(source: string, hidden: bool, exe: string, exe2: string)
    requires HasSection(Lines(source), HEADER)
    ensures MakePlan(Rewritten(source, hidden, exe), hidden, exe2).extras == []
      <==> hidden || (Finds(source, hidden, exe, "Type") && Finds(source, hidden, exe, "Name"))
  {
    var once := Rewritten(source, hidden, exe);
    ExecStays(source, hidden, exe);
    OtherKeysRead(source, hidden, exe, "Type");
    OtherKeysRead(source, hidden, exe, "Name");
    ExtraLine(once, hidden, exe2, "Type");
    ExtraLine(once, hidden, exe2, "Name");
  }

  /** After a rewrite that enables, Exec is there. */
  lemma ExecStays(source: string, hidden: bool, exe: string)
    requires HasSection(Lines(source), HEADER)
    ensures !Needs(Rewritten(source, hidden, exe), hidden, "Exec")
  {
    if !hidden {
      if Needs(source, hidden, "Exec") {
        ExecComes(source, hidden, exe);
      } else {
        KeyFound(source, exe, "Exec");
        OtherKeysRead(source, hidden, exe, "Exec");
      }
    }
  }

  lemma ExecComes(source: string, hidden: bool, exe: string)
    requires Needs(source, hidden, "Exec") && HasSection(Lines(source), HEADER)
    ensures Read(Rewritten(source, hidden, exe), "Exec").Some?
  {
    ExecGiven(source, hidden, exe);
    OtherKeysRead(source, hidden, exe, "Exec");
    MakePlanOk(source, hidden, exe);
    InsertedHas(Lines(source), false, false, MakePlan(source, hidden, exe), "Exec");
  }

  lemma ExecGiven(source: string, hidden: bool, exe: string)
    requires Needs(source, hidden, "Exec")
    ensures Value(HEADER, MakePlan(source, hidden, exe).extras, true, "Exec").Some?
  {
    ExtrasConcat(source, hidden, exe, "Exec");
    Split("Exec" + "=", Default("Exec", exe), "\n");
    ExecFirst(Default("Exec", exe) + "\n");
  }

  lemma Split(a: string, b: string, c: string)
    ensures a + b + c == a + (b + c)
  {
  }

  lemma ExecFirst(rest: string)
    ensures Value(HEADER, Lines("Exec" + "=" + rest), true, "Exec").Some?
  {
    var s := "Exec" + "=" + rest;
    ExecLine(rest);
    var l := s[..NewlineAt(s)];
    assert Lines(s) == [l] + Lines(Rest(s)) && l[0] == s[0];
    ValueCons(HEADER, l, Lines(Rest(s)), true, "Exec");
  }

  lemma ExecLine(rest: string)
    ensures var s := "Exec" + "=" + rest; NewlineAt(s) >= 5 && Assigns(s[..NewlineAt(s)], "Exec") && s[0] != '['
  {
    var s := "Exec" + "=" + rest;
    var n := NewlineAt(s);
    assert s[0] == 'E' && s[1] == 'x' && s[2] == 'e' && s[3] == 'c' && s[4] == '=';
    assert s[..n][..4] == "Exec";
  }

  /** With a path of one line, or when hiding, doing it twice is doing it once, and the second succeeds too. */
  lemma ToggleIsIdempotent(source: string, hidden: bool, exe: string, exe2: string, capacity: nat)
    requires OneLine(source, hidden, exe) && Succeeds(source, hidden, exe, capacity)
    ensures Rewritten(Rewritten(source, hidden, exe), hidden, exe2) == Rewritten(source, hidden, exe)
    ensures Succeeds(Rewritten(source, hidden, exe), hidden, exe2, capacity)
  {
    ToggleTwiceExact(source, hidden, exe, exe2);
    OneLineUnmarked(source, hidden, exe);
    SecondSucceeds(source, hidden, exe);
    if !hidden {
      KeyFound(source, exe, "Type");
      KeyFound(source, exe, "Name");
    }
  }

  lemma SecondSucceeds(source: string, hidden: bool, exe: string)
    requires HasSection(Lines(source), HEADER)
    ensures HasSection(Lines(Rewritten(source, hidden, exe)), HEADER)
    ensures !Needs(Rewritten(source, hidden, exe), hidden, "Exec")
  {
    MakePlanOk(source, hidden, exe);
    RewrittenLines(source, hidden, exe);
    RewriteKeepsHeader(Lines(source), false, false, false, MakePlan(source, hidden, exe));
    ExecStays(source, hidden, exe);
  }

  lemma KeyFound(source: string, exe: string, key: string)
    requires OneLine(source, false, exe) && HasSection(Lines(source), HEADER) && key in {"Type", "Name", "Exec"}
    ensures Finds(source, false, exe, key)
  {
    assert '=' !in key && key != HIDDEN;
    OtherKeysKept(source, false, exe, key);
    OtherKeysRead(source, false, exe, key);
  }

  lemma OneLineUnmarked(source: string, hidden: bool, exe: string)
    requires OneLine(source, hidden, exe)
    ensures Unmarked(source, hidden, exe)
  {
    OneLineIsTame(source, hidden, exe);
    var p := MakePlan(source, hidden, exe);
    TameUnmarked(p, p.extras, true);
  }

  // ----- the code -----

  /** `key_value`, with a value buffer of `size` characters. */
  method KeyValue(content: string, key: string, size: nat) returns (found: bool, value: string)
    requires size >= 1
    ensures found == Read(content, key).Some?
    ensures found ==> value == Truncated(Read(content, key).value, size)
  {
    found, value := FindValue(HEADER, content, key, size);
  }

  lemma ExtrasTextParts(source: string, hidden: bool, exe: string)
    ensures Text(MakePlan(source, hidden, exe).extras)
         == Text(Extra(source, hidden, exe, "Type")) + Text(Extra(source, hidden, exe, "Name"))
          + Text(Extra(source, hidden, exe, "Exec"))
  {
    TextConcat(Extra(source, hidden, exe, "Type") + Extra(source, hidden, exe, "Name"),
               Extra(source, hidden, exe, "Exec"));
    TextConcat(Extra(source, hidden, exe, "Type"), Extra(source, hidden, exe, "Name"));
  }

  lemma ExtraText(source: string, hidden: bool, exe: string, key: string)
    ensures Text(Extra(source, hidden, exe, key))
         == if Needs(source, hidden, key) then key + "=" + Default(key, exe) + "\n" else ""
  {
    TextOfLines(key + "=" + Default(key, exe) + "\n");
  }

  /** The writer's data for an entry. */
  function MakeScript(hidden: bool, exe: string, needType: bool, needName: bool, needExec: bool): Script {
    Script(HEADER, HIDDEN, HIDDEN + "=" + (if hidden then "true" else "false") + "\n",
           needType, "Type" + "=" + Default("Type", exe) + "\n",
           needName, "Name" + "=" + Default("Name", exe) + "\n",
           needExec, "Exec" + "=" + Default("Exec", exe) + "\n")
  }

  lemma ScriptDescribes(source: string, hidden: bool, exe: string)
    ensures Describes(MakeScript(hidden, exe, Needs(source, hidden, "Type"), Needs(source, hidden, "Name"),
                                 Needs(source, hidden, "Exec")), MakePlan(source, hidden, exe))
  {
    ExtrasTextParts(source, hidden, exe);
    ExtraText(source, hidden, exe, "Type");
    ExtraText(source, hidden, exe, "Name");
    ExtraText(source, hidden, exe, "Exec");
    MakePlanOk(source, hidden, exe);
    NotEmpty("Type", Default("Type", exe));
    NotEmpty("Name", Default("Name", exe));
    NotEmpty("Exec", Default("Exec", exe));
  }

  lemma NotEmpty(key: string, v: string)
    ensures key + "=" + v + "\n" != ""
  {
  }

  /** `toggle_hidden`: it fills the buffer with the rewritten entry exactly when it can. */
  method ToggleHidden(source: string, hidden: bool, exe: string, out: array<char>) returns (ok: bool, used: nat)
    modifies out
    ensures ok == Succeeds(source, hidden, exe, out.Length)
    ensures ok ==> used < out.Length && out[..used] == Rewritten(source, hidden, exe) && out[used] == '\0'
  {
    var hasType, _ := KeyValue(source, "Type", 32);
    var hasName, _ := KeyValue(source, "Name", 256);
    var hasExec, _ := KeyValue(source, "Exec", 4096);
    var needType, needName, needExec := !hidden && !hasType, !hidden && !hasName, !hidden && !hasExec;
    if needExec && (exe == "" || exe[0] != '/') {
      return false, 0;
    }
    ScriptDescribes(source, hidden, exe);
    var script := MakeScript(hidden, exe, needType, needName, needExec);
    var hasSection;
    ok, used, hasSection := RewriteLines(source, out, script, MakePlan(source, hidden, exe));
    ok := ok && hasSection;
  }
}
