/** Reading an entry line by line. */
module EntryReader {
  import opened Common
  import opened EntryLines
  import opened EntryRewrite

  /** The scan for the end of the line at `pos`. */
  method LineEnd(s: string, pos: nat) returns (end: nat)
    requires pos <= |s|
    ensures pos <= end <= |s| && end == pos + NewlineAt(s[pos..])
  {
    end := pos;
    while end < |s| && s[end] != '\n'
      invariant pos <= end <= |s|
      invariant NewlineAt(s[pos..]) == end - pos + NewlineAt(s[end..])
      decreases |s| - end
    {
      assert s[end..][1..] == s[end + 1..];
      end := end + 1;
    }
  }

  /** A value in a buffer of `size` characters. */
  function Truncated(v: string, size: nat): string
    requires size >= 1
  {
    if |v| < size then v else v[..size - 1]
  }

  /** One round of the loop of `key_value`. */
  method ReadLine(header: string, line: string, key: string, size: nat, section: bool, found: bool, value: string)
      returns (section': bool, found': bool, value': string)
    requires size >= 1
    ensures section' == if |line| >= 2 && line[0] == '[' then line == header else section
    ensures if !(|line| >= 2 && line[0] == '[') && section && Assigns(line, key)
            then found' && value' == Truncated(line[|key| + 1..], size) else found' == found && value' == value
  {
    section', found', value' := section, found, value;
    if |line| >= 2 && line[0] == '[' {
      section' := line == header;
    } else if section && |line| > |key| && line[..|key|] == key && line[|key|] == '=' {
      var n := |line| - |key| - 1;
      if n >= size {
        n := size - 1;
      }
      value' := line[|key| + 1..|key| + 1 + n];
      found' := true;
    }
  }

  /** The loop of `key_value`. */
  method FindValue(header: string, content: string, key: string, size: nat) returns (found: bool, value: string)
    requires size >= 1
    ensures var v := Value(header, Lines(content), false, key);
      found == v.Some? && (found ==> value == Truncated(v.value, size))
  {
    var section := false;
    found, value := false, "";
    ghost var last: Option<string> := None;
    ghost var lines := Lines(content);
    var pos := 0;
    assert content[0..] == content;
    while pos < |content|
      invariant 0 <= pos <= |content| && lines == Lines(content[pos..])
      invariant Value(header, Lines(content), false, key) == Or(Value(header, lines, section, key), last)
      invariant found == last.Some?
      invariant found ==> value == Truncated(last.value, size)
    {
      var end := LineEnd(content, pos);
      var line := content[pos..end];
      var next := if end < |content| then end + 1 else end;
      LineStep(content, pos, end);
      lines := Lines(content[next..]);
      ValueCons(header, line, lines, section, key);
      if !(|line| >= 2 && line[0] == '[') && section && Assigns(line, key) {
        last := Some(line[|key| + 1..]);
      }
      section, found, value := ReadLine(header, line, key, size, section, found, value);
      pos := next;
    }
  }
}
