/**
 * The shell text the menu builds for each choice (task.cpp:84-246), with
 * the console prompts removed: `first` and `second` are the one or two words
 * the user types, in the order the program asks for them.
 *
 *   choice  first            second
 *   1       directory name   -
 *   2       file name        -
 *   3       file name        destination directory
 *   4       directory name   destination
 *   5       file/directory   new directory
 *   6       file name        copy file name
 *   7       file/directory   permission mode
 *   8       file name        -
 *   9       directory name   -
 *   10      file name        accounting directory
 *   11      (exit)
 */
module Templates {

  /** What a default-constructed commander holds (task.cpp:46). */
  const DEFAULT_COMMAND: string := "echo \"Invalid value.\""

  /** Outcome of one menu choice. */
  datatype Selection = Command(text: string) | Exit | Undefined

  /** Choices that read a second word. */
  predicate TakesSecond(choice: int) {
    3 <= choice <= 7 || choice == 10
  }

  /** The switch of `Commander::setCommand`, as the string each case assigns. */
  function Select(choice: int, first: string, second: string): (r: Selection)
    ensures r.Exit? <==> choice == 11
    ensures r.Undefined? <==> !(1 <= choice <= 11)
  {
    match choice
    case 1 => Command("mkdir " + first)
    case 2 => Command("touch " + first)
    case 3 => Command("cp \"" + first + "\" \"" + second + "/" + first + "\"")
    case 4 => Command("cp -r \"" + first + "\" \"" + second + "\"")
    case 5 => Command("mv \"" + first + "\" \"" + second + "\"")
    case 6 => Command("cp \"" + first + "\" \"" + second + "\"")
    case 7 => Command("chmod " + second + " \"" + first + "\"")
    case 8 => Command("cat \"" + first + "\"")
    case 9 => Command("ls -al \"" + first + "\"")
    case 10 => Command("echo \"" + second + " - $(ls -l \"" + second + "\")\" > " + "\"" + first + "\"")
    case 11 => Exit
    case _ => Undefined
  }

  /** The command a commander holds after a choice, given what it held before. */
  function CommandAfter(choice: int, first: string, second: string, current: string): (c: string)
    ensures !(1 <= choice <= 10) ==> c == current
  {
    match Select(choice, first, second)
    case Command(text) => text
    case _ => current
  }

  /** Typed words without NUL give a command without NUL. */
  lemma CommandAfterWithoutNul(choice: int, first: string, second: string)
    requires '\0' !in first && '\0' !in second
    ensures '\0' !in CommandAfter(choice, first, second, DEFAULT_COMMAND)
  {
    assert '\0' !in DEFAULT_COMMAND;
    match choice
    case 1 => assert '\0' !in "mkdir ";
    case 2 => assert '\0' !in "touch ";
    case 3 => assert '\0' !in "cp \"" && '\0' !in "\" \"" && '\0' !in "/" && '\0' !in "\"";
    case 4 => assert '\0' !in "cp -r \"" && '\0' !in "\" \"" && '\0' !in "\"";
    case 5 => assert '\0' !in "mv \"" && '\0' !in "\" \"" && '\0' !in "\"";
    case 6 => assert '\0' !in "cp \"" && '\0' !in "\" \"" && '\0' !in "\"";
    case 7 => assert '\0' !in "chmod " && '\0' !in " \"" && '\0' !in "\"";
    case 8 => assert '\0' !in "cat \"" && '\0' !in "\"";
    case 9 => assert '\0' !in "ls -al \"" && '\0' !in "\"";
    case 10 =>
      assert '\0' !in "echo \"" && '\0' !in " - $(ls -l \"" && '\0' !in "\")\" > " && '\0' !in "\"";
    case _ =>
  }

  // ---------------------------------------------------------------------
  // A reference reading of the commands as shell words

  /** A shell word as the commands write it: bare, or between double quotes. */
  datatype Word = Bare(text: string) | Quoted(text: string)

  function RenderWord(w: Word): (t: string)
  {
    match w
    case Bare(text) => text
    case Quoted(text) => "\"" + text + "\""
  }

  /** Words separated by single spaces. */
  function Render(ws: seq<Word>): (r: string)
  {
    if ws == [] then ""
    else if |ws| == 1 then RenderWord(ws[0])
    else RenderWord(ws[0]) + " " + Render(ws[1..])
  }

  /**
   * The intended words of each command: the program name and its options
   * bare, the names from choices 1 and 2 and the permission mode of choice 7
   * bare, every other user-supplied path quoted.
   */
  function Words(choice: int, first: string, second: string): (ws: seq<Word>)
    requires 1 <= choice <= 10
    ensures 2 <= |ws| <= 4 && ws[0].Bare?
  {
    match choice
    case 1 => [Bare("mkdir"), Bare(first)]
    case 2 => [Bare("touch"), Bare(first)]
    case 3 => [Bare("cp"), Quoted(first), Quoted(second + "/" + first)]
    case 4 => [Bare("cp"), Bare("-r"), Quoted(first), Quoted(second)]
    case 5 => [Bare("mv"), Quoted(first), Quoted(second)]
    case 6 => [Bare("cp"), Quoted(first), Quoted(second)]
    case 7 => [Bare("chmod"), Bare(second), Quoted(first)]
    case 8 => [Bare("cat"), Quoted(first)]
    case 9 => [Bare("ls"), Bare("-al"), Quoted(first)]
    case 10 => [Bare("echo"), Quoted(second + " - $(ls -l \"" + second + "\")"), Bare(">"), Quoted(first)]
  }

  lemma RenderTwo(a: Word, b: Word)
    ensures Render([a, b]) == RenderWord(a) + " " + RenderWord(b)
  {
    assert [a, b][1..] == [b];
  }

  lemma RenderThree(a: Word, b: Word, c: Word)
    ensures Render([a, b, c]) == RenderWord(a) + " " + RenderWord(b) + " " + RenderWord(c)
  {
    assert [a, b, c][1..] == [b, c];
    RenderTwo(b, c);
  }

  lemma RenderFour(a: Word, b: Word, c: Word, d: Word)
    ensures Render([a, b, c, d]) ==
              RenderWord(a) + " " + RenderWord(b) + " " + RenderWord(c) + " " + RenderWord(d)
  {
    assert [a, b, c, d][1..] == [b, c, d];
    RenderThree(b, c, d);
  }

  /** Each command string is exactly its intended words joined by spaces. */
  lemma SelectRendersWords(choice: int, first: string, second: string)
    requires 1 <= choice <= 10
    ensures Select(choice, first, second) == Command(Render(Words(choice, first, second)))
  {
    match choice
    case 1 => RenderMkdir(first, second);
    case 2 => RenderTouch(first, second);
    case 3 => RenderCopyFile(first, second);
    case 4 => RenderCopyDirectory(first, second);
    case 5 => RenderMove(first, second);
    case 6 => RenderCopyData(first, second);
    case 7 => RenderChmod(first, second);
    case 8 => RenderCat(first, second);
    case 9 => RenderList(first, second);
    case 10 => RenderEcho(first, second);
  }

  // Each case below splits the literal prefixes of the source's string into
  // words, then regroups the concatenation; the regrouping is stated over
  // plain variables so that it is pure associativity.

  lemma RenderMkdir(first: string, second: string)
    ensures Select(1, first, second) == Command(Render(Words(1, first, second)))
  {
    RenderTwo(Bare("mkdir"), Bare(first));
    assert "mkdir " == "mkdir" + " ";
  }

  lemma RenderTouch(first: string, second: string)
    ensures Select(2, first, second) == Command(Render(Words(2, first, second)))
  {
    RenderTwo(Bare("touch"), Bare(first));
    assert "touch " == "touch" + " ";
  }

  lemma RenderCopyFile(first: string, second: string)
    ensures Select(3, first, second) == Command(Render(Words(3, first, second)))
  {
    RenderThree(Bare("cp"), Quoted(first), Quoted(second + "/" + first));
    assert "cp \"" == "cp" + " " + "\"";
    assert "\" \"" == "\"" + " " + "\"";
    RegroupCopyFile("cp", " ", "\"", first, second, "/");
  }

  lemma RegroupCopyFile(c: string, sp: string, q: string, f: string, s: string, sl: string)
    ensures (c + sp + q) + f + (q + sp + q) + s + sl + f + q ==
            c + sp + (q + f + q) + sp + (q + (s + sl + f) + q)
  {
  }

  lemma RenderCopyDirectory(first: string, second: string)
    ensures Select(4, first, second) == Command(Render(Words(4, first, second)))
  {
    RenderFour(Bare("cp"), Bare("-r"), Quoted(first), Quoted(second));
    assert "cp -r \"" == "cp" + " " + "-r" + " " + "\"";
    assert "\" \"" == "\"" + " " + "\"";
    RegroupOptionPair("cp", " ", "-r", "\"", first, second);
  }

  lemma RegroupOptionPair(c: string, sp: string, r: string, q: string, f: string, s: string)
    ensures (c + sp + r + sp + q) + f + (q + sp + q) + s + q ==
            c + sp + r + sp + (q + f + q) + sp + (q + s + q)
  {
  }

  lemma RenderMove(first: string, second: string)
    ensures Select(5, first, second) == Command(Render(Words(5, first, second)))
  {
    RenderThree(Bare("mv"), Quoted(first), Quoted(second));
    assert "mv \"" == "mv" + " " + "\"";
    assert "\" \"" == "\"" + " " + "\"";
    RegroupPair("mv", " ", "\"", first, second);
  }

  lemma RenderCopyData(first: string, second: string)
    ensures Select(6, first, second) == Command(Render(Words(6, first, second)))
  {
    RenderThree(Bare("cp"), Quoted(first), Quoted(second));
    assert "cp \"" == "cp" + " " + "\"";
    assert "\" \"" == "\"" + " " + "\"";
    RegroupPair("cp", " ", "\"", first, second);
  }

  lemma RegroupPair(c: string, sp: string, q: string, f: string, s: string)
    ensures (c + sp + q) + f + (q + sp + q) + s + q == c + sp + (q + f + q) + sp + (q + s + q)
  {
  }

  lemma RenderChmod(first: string, second: string)
    ensures Select(7, first, second) == Command(Render(Words(7, first, second)))
  {
    RenderThree(Bare("chmod"), Bare(second), Quoted(first));
    assert "chmod " == "chmod" + " ";
    assert " \"" == " " + "\"";
    RegroupChmod("chmod", " ", "\"", second, first);
  }

  lemma RegroupChmod(c: string, sp: string, q: string, m: string, f: string)
    ensures (c + sp) + m + (sp + q) + f + q == c + sp + m + sp + (q + f + q)
  {
  }

  lemma RenderCat(first: string, second: string)
    ensures Select(8, first, second) == Command(Render(Words(8, first, second)))
  {
    RenderTwo(Bare("cat"), Quoted(first));
    assert "cat \"" == "cat" + " " + "\"";
    RegroupSingle("cat", " ", "\"", first);
  }

  lemma RegroupSingle(c: string, sp: string, q: string, f: string)
    ensures (c + sp + q) + f + q == c + sp + (q + f + q)
  {
  }

  lemma RenderList(first: string, second: string)
    ensures Select(9, first, second) == Command(Render(Words(9, first, second)))
  {
    RenderThree(Bare("ls"), Bare("-al"), Quoted(first));
    assert "ls -al \"" == "ls" + " " + "-al" + " " + "\"";
    RegroupOptionSingle("ls", " ", "-al", "\"", first);
  }

  lemma RegroupOptionSingle(c: string, sp: string, r: string, q: string, f: string)
    ensures (c + sp + r + sp + q) + f + q == c + sp + r + sp + (q + f + q)
  {
  }

  lemma RenderEcho(first: string, second: string)
    ensures Select(10, first, second) == Command(Render(Words(10, first, second)))
  {
    RenderFour(Bare("echo"), Quoted(second + " - $(ls -l \"" + second + "\")"), Bare(">"), Quoted(first));
    assert "echo \"" == "echo" + " " + "\"";
    assert "\")\" > " == "\")" + "\"" + " " + ">" + " ";
    RegroupEcho("echo", " ", "\"", second, " - $(ls -l \"", "\")", ">", first);
  }

  lemma RegroupEcho(e: string, sp: string, q: string, s: string, a: string, b: string, gt: string, f: string)
    ensures (e + sp + q) + s + a + s + (b + q + sp + gt + sp) + q + f + q ==
            e + sp + (q + (s + a + s + b) + q) + sp + gt + sp + (q + f + q)
  {
  }

  // ---------------------------------------------------------------------
  // The typed words can be read back from the command

  /**
   * A word as `cin >>` reads it (task.cpp:93-225): the extraction stops at
   * white space, so the word holds no space character.
   */
  predicate NoSpace(s: string) {
    ' ' !in s
  }

  lemma DropCommonPrefix(p: string, x: string, y: string)
    requires p + x == p + y
    ensures x == y
  {
    assert x == (p + x)[|p|..];
  }

  lemma DropCommonSuffix(x: string, y: string, p: string)
    requires x + p == y + p
    ensures x == y
  {
    assert x == (x + p)[..|x|];
  }

  /** After space-free text, the first space is the one that follows it. */
  lemma FirstSpaceAt(x: string, y: string)
    requires NoSpace(x)
    ensures (x + " " + y)[|x|] == ' '
    ensures forall i :: 0 <= i < |x| ==> (x + " " + y)[i] != ' '
  {
    forall i | 0 <= i < |x|
      ensures (x + " " + y)[i] != ' '
    {
      assert (x + " " + y)[i] == x[i];
      assert x[i] in x;
    }
  }

  /** Text before the first space is determined by the string. */
  lemma SplitAtSpace(x: string, y: string, x': string, y': string)
    requires NoSpace(x) && NoSpace(x')
    requires x + " " + y == x' + " " + y'
    ensures x == x' && y == y'
  {
    var s := x + " " + y;
    FirstSpaceAt(x, y);
    FirstSpaceAt(x', y');
    assert |x| == |x'|;
    assert x == s[..|x|];
    assert y == s[|x| + 1..];
  }

  /** After a common prefix, space-free text up to a space is determined. */
  lemma SplitAfterPrefix(p: string, x: string, rest: string, x': string, rest': string)
    requires NoSpace(x) && NoSpace(x')
    requires p + x + " " + rest == p + x' + " " + rest'
    ensures x == x' && rest == rest'
  {
    assert p + x + " " + rest == p + (x + " " + rest);
    assert p + x' + " " + rest' == p + (x' + " " + rest');
    DropCommonPrefix(p, x + " " + rest, x' + " " + rest');
    SplitAtSpace(x, rest, x', rest');
  }

  /** A word closed by a double quote at the end of a command is determined. */
  lemma ClosingQuote(p: string, x: string, x': string)
    requires p + x + "\"" == p + x' + "\""
    ensures x == x'
  {
    assert p + x + "\"" == p + (x + "\"");
    assert p + x' + "\"" == p + (x' + "\"");
    DropCommonPrefix(p, x + "\"", x' + "\"");
    DropCommonSuffix(x, x', "\"");
  }

  /** A space-free word followed by a double quote is still space-free. */
  lemma NoSpaceThenQuote(a: string)
    requires NoSpace(a)
    ensures NoSpace(a + "\"")
  {
    assert ' ' !in "\"";
  }

  /**
   * The typed words can be read back: for words `cin >>` can return, the
   * command text of choices 1-10 determines every word the choice reads,
   * double quotes inside the words included.
   */
  lemma SelectInjective(choice: int, first: string, second: string, first': string, second': string)
    requires 1 <= choice <= 10
    requires NoSpace(first) && NoSpace(second) && NoSpace(first') && NoSpace(second')
    requires Select(choice, first, second) == Select(choice, first', second')
    ensures first == first'
    ensures TakesSecond(choice) ==> second == second'
  {
    match choice
    case 1 => DropCommonPrefix("mkdir ", first, first');
    case 2 => DropCommonPrefix("touch ", first, first');
    case 3 => CopyFileInjective(first, second, first', second');
    case 4 => QuotedPairInjective("cp -r \"", first, second, first', second');
    case 5 => QuotedPairInjective("mv \"", first, second, first', second');
    case 6 => QuotedPairInjective("cp \"", first, second, first', second');
    case 7 => ChmodInjective(first, second, first', second');
    case 8 => ClosingQuote("cat \"", first, first');
    case 9 => ClosingQuote("ls -al \"", first, first');
    case 10 => EchoInjective(first, second, first', second');
  }

  lemma QuotedPairInjective(p: string, a: string, b: string, a': string, b': string)
    requires NoSpace(a) && NoSpace(a')
    requires p + a + "\" \"" + b + "\"" == p + a' + "\" \"" + b' + "\""
    ensures a == a' && b == b'
  {
    assert "\" \"" == "\"" + " " + "\"";
    RegroupPairAtSpace(p, a, "\"", " ", b);
    RegroupPairAtSpace(p, a', "\"", " ", b');
    NoSpaceThenQuote(a);
    NoSpaceThenQuote(a');
    SplitAfterPrefix(p, a + "\"", "\"" + b + "\"", a' + "\"", "\"" + b' + "\"");
    DropCommonSuffix(a, a', "\"");
    ClosingQuote("\"", b, b');
  }

  lemma RegroupPairAtSpace(p: string, a: string, q: string, sp: string, b: string)
    ensures p + a + (q + sp + q) + b + q == p + (a + q) + sp + (q + b + q)
  {
  }

  lemma CopyFileInjective(a: string, b: string, a': string, b': string)
    requires NoSpace(a) && NoSpace(a')
    requires Select(3, a, b) == Select(3, a', b')
    ensures a == a' && b == b'
  {
    assert "\" \"" == "\"" + " " + "\"";
    RegroupCopyFileAtSpace("cp \"", a, "\"", " ", b, "/");
    RegroupCopyFileAtSpace("cp \"", a', "\"", " ", b', "/");
    NoSpaceThenQuote(a);
    NoSpaceThenQuote(a');
    SplitAfterPrefix("cp \"", a + "\"", "\"" + (b + ("/" + a + "\"")), a' + "\"", "\"" + (b' + ("/" + a' + "\"")));
    DropCommonSuffix(a, a', "\"");
    DropCommonPrefix("\"", b + ("/" + a + "\""), b' + ("/" + a + "\""));
    DropCommonSuffix(b, b', "/" + a + "\"");
  }

  lemma RegroupCopyFileAtSpace(p: string, a: string, q: string, sp: string, b: string, sl: string)
    ensures p + a + (q + sp + q) + b + sl + a + q == p + (a + q) + sp + (q + (b + (sl + a + q)))
  {
  }

  lemma ChmodInjective(a: string, b: string, a': string, b': string)
    requires NoSpace(b) && NoSpace(b')
    requires Select(7, a, b) == Select(7, a', b')
    ensures a == a' && b == b'
  {
    assert " \"" == " " + "\"";
    RegroupChmodAtSpace("chmod ", b, " ", "\"", a);
    RegroupChmodAtSpace("chmod ", b', " ", "\"", a');
    SplitAfterPrefix("chmod ", b, "\"" + a + "\"", b', "\"" + a' + "\"");
    ClosingQuote("\"", a, a');
  }

  lemma RegroupChmodAtSpace(c: string, b: string, sp: string, q: string, a: string)
    ensures c + b + (sp + q) + a + q == c + b + sp + (q + a + q)
  {
  }

  lemma EchoInjective(a: string, b: string, a': string, b': string)
    requires NoSpace(b) && NoSpace(b')
    requires Select(10, a, b) == Select(10, a', b')
    ensures a == a' && b == b'
  {
    var mid := "- $(ls -l \"";
    var tail := "\")\" > ";
    assert " - $(ls -l \"" == " " + mid;
    RegroupEchoAtSpace("echo \"", b, " ", mid, tail, "\"", a);
    RegroupEchoAtSpace("echo \"", b', " ", mid, tail, "\"", a');
    SplitAfterPrefix("echo \"", b, mid + b + tail + "\"" + a + "\"", b', mid + b' + tail + "\"" + a' + "\"");
    ClosingQuote(mid + b + tail + "\"", a, a');
  }

  lemma RegroupEchoAtSpace(p: string, b: string, sp: string, m: string, t: string, q: string, a: string)
    ensures p + b + (sp + m) + b + t + q + a + q == p + b + sp + (m + b + t + q + a + q)
  {
  }
}
