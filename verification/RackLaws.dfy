/** What the rack file and the script's output look like, character by character. */
module RackLaws {
  import opened Rack

  // ---------- the file ----------

  lemma {:induction false} RecordsJoin(a: seq<Child>, b: seq<Child>)
    ensures Records(a + b) == Records(a) + Records(b)
    decreases |b|
  {
    if b == [] {
      assert a + b == a;
    } else {
      assert (a + b)[..|a + b| - 1] == a + b[..|b| - 1];
      RecordsJoin(a, b[..|b| - 1]);
    }
  }

  lemma {:induction false} TextJoin(a: seq<string>, b: seq<string>)
    ensures Text(a + b) == Text(a) + Text(b)
    decreases |b|
  {
    if b == [] {
      assert a + b == a;
    } else {
      assert (a + b)[..|a + b| - 1] == a + b[..|b| - 1];
      TextJoin(a, b[..|b| - 1]);
    }
  }

  /** The file of some children and then others is that of the former and then that of the latter. */
  lemma FileJoins(a: seq<Child>, b: seq<Child>)
    ensures Text(Records(a + b)) == Text(Records(a)) + Text(Records(b))
  {
    RecordsJoin(a, b);
    TextJoin(Records(a), Records(b));
  }

  /** That of one child is a line with its address, a space and its data, and nothing if its name does not
      resolve. */
  lemma FileOfOne(c: Child)
    ensures Text(Records([])) == ""
    ensures c.address.None? ==> Text(Records([c])) == ""
    ensures c.address.Some? ==> Text(Records([c])) == c.address.value + " " + c.value + "\n"
  {
    assert [c][..0] == [];
    if c.address.Some? {
      assert Records([c]) == [Record(c)] && [Record(c)][..0] == [];
      assert "" + Record(c) + "\n" == c.address.value + " " + c.value + "\n";
    }
  }

  // ---------- lines and words ----------

  lemma {:induction false} NoLineEnd(text: string)
    requires '\n' !in text
    ensures LineLength(text) == |text|
    decreases |text|
  {
    if text != "" {
      assert text[0] in text;
      NoLineEnd(text[1..]);
    }
  }

  /** A text is cut into lines at the line ends, and what follows the last of them is dropped. */
  lemma LinesAre(line: string, rest: string)
    requires '\n' !in line
    ensures Lines(line + "\n" + rest) == [line] + Lines(rest)
    ensures Lines(line) == []
  {
    FirstLine(line, rest);
    NoLineEnd(line);
  }

  /** A line is cut into words at spaces, tabs and line ends: two parts with one of them between give the
      words of both ... */
  lemma {:induction false} WordsJoin(a: string, blank: char, b: string)
    requires blank == ' ' || blank == '\t' || blank == '\n'
    ensures Words(a + [blank] + b) == Words(a) + Words(b)
    decreases |a|
  {
    var line := a + [blank] + b;
    if a == "" {
      assert line[0] == blank && line[1..] == b;
    } else if Blank(a[0]) {
      assert line[0] == a[0] && line[1..] == a[1..] + [blank] + b;
      WordsJoin(a[1..], blank, b);
    } else {
      var n := WordLength(a);
      WordIsCut(a, [blank] + b);
      assert line == a + ([blank] + b) && line[0] == a[0];
      assert line[..n] == a[..n] && line[n..] == a[n..] + [blank] + b;
      WordsJoin(a[n..], blank, b);
    }
  }

  /** What comes after a blank has no part in the first word. */
  lemma {:induction false} WordIsCut(a: string, rest: string)
    requires rest != "" && Blank(rest[0])
    ensures WordLength(a + rest) == WordLength(a)
    decreases |a|
  {
    if a != "" {
      assert (a + rest)[1..] == a[1..] + rest;
      WordIsCut(a[1..], rest);
    }
  }

  /** ... and a part without any of them is a word, unless it is empty. */
  lemma WordsOfSolid(word: string)
    requires forall i :: 0 <= i < |word| ==> word[i] != ' ' && word[i] != '\t' && word[i] != '\n'
    ensures Words(word) == if word == "" then [] else [word]
  {
    if word != "" {
      WordLengthIs(word, "");
      assert word + "" == word;
      assert Words("") == [];
    }
  }

  // ---------- the lookup ----------

  /** The line's first word is the name; a line without words is one for the empty name. */
  predicate IsFor(line: string, name: string) {
    if Words(line) == [] then name == "" else Words(line)[0] == name
  }

  lemma IsForFirstWord(line: string, name: string)
    ensures IsFor(line, name) <==> Word(line, 0) == name
    ensures Word(line, 1) == if |Words(line)| >= 2 then Words(line)[1] else ""
  {
    hide Words;
  }

  /** A lookup gives the second word of the last line for the name, or nothing if that line has none ... */
  lemma {:induction false} LastMatchAt(lines: seq<string>, name: string, i: nat)
    requires i < |lines| && IsFor(lines[i], name)
    requires forall j :: i < j < |lines| ==> !IsFor(lines[j], name)
    ensures LastMatch(lines, name) == if |Words(lines[i])| >= 2 then Words(lines[i])[1] else ""
    decreases |lines|
  {
    IsForFirstWord(lines[|lines| - 1], name);
    hide Words, Word, IsFor;
    if i < |lines| - 1 {
      LastMatchAt(lines[..|lines| - 1], name, i);
    }
  }

  /** ... and nothing if there is no line for the name. */
  lemma {:induction false} NoMatch(lines: seq<string>, name: string)
    requires forall j :: 0 <= j < |lines| ==> !IsFor(lines[j], name)
    ensures LastMatch(lines, name) == ""
    decreases |lines|
  {
    if lines != [] {
      IsForFirstWord(lines[|lines| - 1], name);
      hide Words, Word, IsFor;
      NoMatch(lines[..|lines| - 1], name);
    }
  }

  // ---------- the output ----------

  /** Every further name adds its rack, or the default rack if there is none, with a space after it. */
  lemma AnswersInOrder(names: seq<string>, name: string, file: string)
    ensures Answers([], file) == ""
    ensures var rack := LastMatch(Lines(file), name);
            Answers(names + [name], file) ==
              Answers(names, file) + if rack == "" then "/default-rack " else "/rack-" + rack + " "
  {
    assert (names + [name])[..|names + [name]| - 1] == names;
    hide LastMatch, Lines;
  }
}
