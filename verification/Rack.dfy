/** The rack topology file: the Java writer and the shell script that looks racks up in it. */
module Rack {
  import opened Kube

  /** A child of the znode: the address its name resolves to, if it does, and its data. */
  datatype Child = Child(address: Option<string>, value: string)

  predicate Blank(c: char) {
    c == ' ' || c == '\t' || c == '\n'
  }

  predicate Solid(s: string) {
    forall i :: 0 <= i < |s| ==> !Blank(s[i])
  }

  predicate OneLine(s: string) {
    '\n' !in s
  }

  // ---------- the writer ----------

  function Record(c: Child): string
    requires c.address.Some?
  {
    c.address.value + " " + c.value
  }

  /** The lines for the children that resolve, in order. */
  function Records(children: seq<Child>): seq<string> {
    if children == [] then []
    else
      Records(children[..|children| - 1])
      + if children[|children| - 1].address.Some? then [Record(children[|children| - 1])] else []
  }

  /** A text of terminated lines. */
  function Text(lines: seq<string>): string {
    if lines == [] then "" else Text(lines[..|lines| - 1]) + lines[|lines| - 1] + "\n"
  }

  lemma TextStep(children: seq<Child>, i: nat)
    requires i < |children|
    ensures var before := Text(Records(children[..i]));
            Text(Records(children[..i + 1])) ==
              match children[i].address
              case None => before
              case Some(address) => before + (address + " " + children[i].value) + "\n"
  {
    assert children[..i + 1][..i] == children[..i];
    var records := Records(children[..i]);
    if children[i].address.Some? {
      assert (records + [Record(children[i])])[..|records|] == records;
    } else {
      assert records + [] == records;
    }
  }

  /** Writes a line for each child that resolves; one that does not is left out. */
  method RefreshRacks(children: seq<Child>) returns (file: string)
    ensures file == Text(Records(children))
  {
    file := "";
    for i := 0 to |children|
      invariant file == Text(Records(children[..i]))
    {
      var c := children[i];
      TextStep(children, i);
      match c.address {
        case Some(address) =>
          file := file + (address + " " + c.value);
          file := file + "\n";
        case None =>
      }
    }
    assert children[..|children|] == children;
  }

  // ---------- the reader ----------

  function LineLength(text: string): (n: nat)
    ensures n <= |text| && OneLine(text[..n]) && (n < |text| ==> text[n] == '\n')
  {
    if text == "" || text[0] == '\n' then 0 else 1 + LineLength(text[1..])
  }

  /** The lines of a text; characters after the last line end are not a line. */
  function Lines(text: string): seq<string>
    decreases |text|
  {
    var n := LineLength(text);
    if n == |text| then [] else [text[..n]] + Lines(text[n + 1..])
  }

  function WordLength(line: string): (n: nat)
    ensures n <= |line| && Solid(line[..n]) && (n < |line| ==> Blank(line[n]))
  {
    if line == "" || Blank(line[0]) then 0 else 1 + WordLength(line[1..])
  }

  /** The words of a line, split at blanks. */
  function Words(line: string): seq<string>
    decreases |line|
  {
    if line == "" then []
    else if Blank(line[0]) then Words(line[1..])
    else
      var n := WordLength(line);
      assert n > 0;
      [line[..n]] + Words(line[n..])
  }

  function Word(line: string, i: nat): string {
    if i < |Words(line)| then Words(line)[i] else ""
  }

  /** The second word of the last line whose first word is `name`, or "". */
  function LastMatch(lines: seq<string>, name: string): string {
    if lines == [] then ""
    else if Word(lines[|lines| - 1], 0) == name then Word(lines[|lines| - 1], 1)
    else LastMatch(lines[..|lines| - 1], name)
  }

  function Answer(value: string): string {
    if value == "" then "/default-rack " else "/rack-" + value + " "
  }

  function Answers(names: seq<string>, file: string): string {
    if names == [] then ""
    else Answers(names[..|names| - 1], file) + Answer(LastMatch(Lines(file), names[|names| - 1]))
  }

  /** Reads the file from its beginning and keeps what the last matching line says. */
  method LookUp(nodeArg: string, file: string) returns (result: string)
    ensures result == LastMatch(Lines(file), nodeArg)
  {
    var lines := Lines(file);
    hide Word, Lines;
    result := "";
    for i := 0 to |lines|
      invariant result == LastMatch(lines[..i], nodeArg)
    {
      assert lines[..i + 1][..i] == lines[..i];
      if Word(lines[i], 0) == nodeArg {
        result := Word(lines[i], 1);
      }
    }
    assert lines[..|lines|] == lines;
  }

  lemma NoAnswers(file: string)
    ensures Answers([], file) == ""
  {
  }

  lemma OneMoreAnswer(names: seq<string>, i: nat, file: string)
    requires i < |names|
    ensures Answers(names[..i + 1], file) == Answers(names[..i], file) + Answer(LastMatch(Lines(file), names[i]))
  {
    assert names[..i + 1][..i] == names[..i];
  }

  lemma Shift(names: seq<string>, i: nat)
    requires i < |names|
    ensures names[i..] != [] && names[i..][0] == names[i] && names[i..][1..] == names[i + 1..]
  {
  }

  /** Looks up every argument; a missing file or argument list gives one default answer. */
  method RackTopology(names: seq<string>, file: Option<string>) returns (out: string)
    ensures out == if names == [] || file.None? then "/default-rack " else Answers(names, file.value)
  {
    if |names| == 0 || file.None? {
      return "/default-rack ";
    }
    hide LastMatch, Lines, Answers;
    NoAnswers(file.value);
    out := "";
    var args := names;
    ghost var done := 0;
    assert names[..0] == [] && names[0..] == names && names[..|names|] == names;
    while |args| > 0
      invariant done <= |names| && args == names[done..]
      invariant out == Answers(names[..done], file.value)
    {
      OneMoreAnswer(names, done, file.value);
      Shift(names, done);
      var result := LookUp(args[0], file.value);
      args := args[1..];
      done := done + 1;
      if result == "" {
        out := out + "/default-rack ";
      } else {
        out := out + ("/rack-" + result + " ");
      }
    }
  }

  // ---------- reading what was written ----------

  lemma {:induction false} LineLengthIs(line: string, rest: string)
    requires OneLine(line)
    ensures LineLength(line + "\n" + rest) == |line|
    decreases |line|
  {
    var text := line + "\n" + rest;
    if line == "" {
      assert text[0] == '\n';
    } else {
      assert text[1..] == line[1..] + "\n" + rest && text[0] == line[0] && line[0] in line;
      LineLengthIs(line[1..], rest);
    }
  }

  lemma FirstLine(line: string, rest: string)
    requires OneLine(line)
    ensures Lines(line + "\n" + rest) == [line] + Lines(rest)
  {
    var text := line + "\n" + rest;
    LineLengthIs(line, rest);
    assert text[..|line|] == line && text[|line| + 1..] == rest;
  }

  /** Lines come back as they were written, also with more text after them. */
  lemma {:induction false} LinesOfText(lines: seq<string>, rest: string)
    requires forall i :: 0 <= i < |lines| ==> OneLine(lines[i])
    ensures Lines(Text(lines) + rest) == lines + Lines(rest)
    decreases |lines|
  {
    hide Lines, LineLength;
    if lines == [] {
      assert Text(lines) + rest == rest;
    } else {
      var before, line := lines[..|lines| - 1], lines[|lines| - 1];
      assert Text(lines) + rest == Text(before) + (line + "\n" + rest);
      LinesOfText(before, line + "\n" + rest);
      FirstLine(line, rest);
      assert before + ([line] + Lines(rest)) == lines + Lines(rest);
    }
  }

  lemma {:induction false} WordLengthIs(word: string, rest: string)
    requires Solid(word) && (rest == "" || Blank(rest[0]))
    ensures WordLength(word + rest) == |word|
    decreases |word|
  {
    if word == "" {
      assert word + rest == rest;
    } else {
      assert (word + rest)[1..] == word[1..] + rest && (word + rest)[0] == word[0];
      WordLengthIs(word[1..], rest);
    }
  }

  lemma FirstWord(word: string, rest: string)
    requires word != "" && Solid(word)
    ensures Words(word + " " + rest) == [word] + Words(rest)
  {
    var line := word + (" " + rest);
    assert word + " " + rest == line;
    WordLengthIs(word, " " + rest);
    assert line[0] == word[0] && line[..|word|] == word && line[|word|..] == " " + rest;
    assert (" " + rest)[1..] == rest;
  }

  predicate Writable(c: Child) {
    c.address.Some? ==> c.address.value != "" && Solid(c.address.value) && OneLine(c.value)
  }

  /** The data of the last child with that address, or "". */
  function RackOf(children: seq<Child>, name: string): string {
    if children == [] then ""
    else if children[|children| - 1].address == Some(name) then children[|children| - 1].value
    else RackOf(children[..|children| - 1], name)
  }

  lemma {:induction false} RecordsAreLines(children: seq<Child>)
    requires forall i :: 0 <= i < |children| ==> Writable(children[i])
    ensures forall i :: 0 <= i < |Records(children)| ==> OneLine(Records(children)[i])
    decreases |children|
  {
    if children != [] {
      RecordsAreLines(children[..|children| - 1]);
      assert Writable(children[|children| - 1]);
    }
  }

  lemma {:induction false} MatchOfRecords(children: seq<Child>, name: string)
    requires forall i :: 0 <= i < |children| ==> Writable(children[i])
    ensures LastMatch(Records(children), name) == Word(RackOf(children, name), 0)
    decreases |children|
  {
    if children != [] {
      var before, c := children[..|children| - 1], children[|children| - 1];
      MatchOfRecords(before, name);
      assert Writable(c);
      if c.address.Some? {
        FirstWord(c.address.value, c.value);
        assert Words(Record(c)) == [c.address.value] + Words(c.value);
        assert Word(Record(c), 0) == c.address.value && Word(Record(c), 1) == Word(c.value, 0);
        var records := Records(before) + [Record(c)];
        assert records[..|records| - 1] == Records(before) && Records(children) == records;
      } else {
        assert Records(children) == Records(before);
      }
    }
  }

  lemma {:induction false} WordsAreSolid(line: string)
    ensures forall i :: 0 <= i < |Words(line)| ==> Solid(Words(line)[i])
    decreases |line|
  {
    if line != "" {
      if Blank(line[0]) {
        WordsAreSolid(line[1..]);
      } else {
        WordsAreSolid(line[WordLength(line)..]);
      }
    }
  }

  lemma WholeWord(value: string)
    ensures Word(value, 0) == value <==> Solid(value)
  {
    WordsAreSolid(value);
    if Solid(value) && value != "" {
      WordLengthIs(value, "");
      assert value + "" == value;
    }
  }

  /** Looking a name up in the file that was written gives the data of the last child that resolves
      to it, if and only if that data has no blank in it; otherwise it is cut at the first word. */
  lemma RoundTrip(children: seq<Child>, name: string)
    requires forall i :: 0 <= i < |children| ==> Writable(children[i])
    ensures var found := LastMatch(Lines(Text(Records(children))), name);
            && found == Word(RackOf(children, name), 0)
            && (found == RackOf(children, name) <==> Solid(RackOf(children, name)))
  {
    RecordsAreLines(children);
    LinesOfText(Records(children), "");
    assert Text(Records(children)) + "" == Text(Records(children));
    assert Records(children) + Lines("") == Records(children);
    MatchOfRecords(children, name);
    WholeWord(RackOf(children, name));
  }

  function Racks(children: seq<Child>, names: seq<string>): string {
    if names == [] then "" else Racks(children, names[..|names| - 1]) + Answer(RackOf(children, names[|names| - 1]))
  }

  /** The script, run on the file the writer has written, answers every argument in order with the
      rack of the last child that resolves to it, or the default rack. */
  lemma {:induction false} AnswersAreRacks(children: seq<Child>, names: seq<string>)
    requires forall i :: 0 <= i < |children| ==> Writable(children[i]) && Solid(children[i].value)
    ensures Answers(names, Text(Records(children))) == Racks(children, names)
    decreases |names|
  {
    if names != [] {
      AnswersAreRacks(children, names[..|names| - 1]);
      RoundTrip(children, names[|names| - 1]);
      RackIsSolid(children, names[|names| - 1]);
    }
  }

  lemma {:induction false} RackIsSolid(children: seq<Child>, name: string)
    requires forall i :: 0 <= i < |children| ==> Solid(children[i].value)
    ensures Solid(RackOf(children, name))
    decreases |children|
  {
    if children != [] {
      RackIsSolid(children[..|children| - 1], name);
    }
  }
}
