/** The environment check script: it reports whether the backend URL and key are set, echoes
    their beginnings, lists the variable names found in `.env.local`, and prints either the
    steps to fix the setup or a confirmation. The console output is modelled as a record of
    what is printed. */
module CheckEnv {
  import opened Wrappers
  import opened Text
  import opened Sequences

  /** The `.env.local` file: missing, present but failing to read, or its text. */
  datatype EnvFile = Missing | Unreadable(message: string) | Content(text: string)

  datatype Instructions = FixSteps | LooksCorrect

  /** What the script prints. */
  datatype Report = Report(
    urlDefined: bool,
    keyDefined: bool,
    urlEcho: Option<string>,
    keyEcho: Option<string>,
    fileExists: bool,
    variables: Option<seq<string>>,
    readError: Option<string>,
    instructions: Instructions)

  /** A variable counts as set when it is present and not empty. */
  predicate Truthy(v: Option<string>)
  {
    v.Some? && v.value != ""
  }

  const Ellipsis := "..."
  const UrlEchoLength := 30
  const KeyEchoLength := 20

  /** `value.substring(0, n) + "..."`. */
  function Echo(value: string, n: nat): (e: string)
    ensures |e| == (if |value| < n then |value| else n) + |Ellipsis|
    ensures e[..|e| - |Ellipsis|] <= value && e[|e| - |Ellipsis|..] == Ellipsis
  {
    Text.Take(value, n) + Ellipsis
  }

  /** The filter on the file's lines: not blank, and not starting with "#" as written (an
      indented "#" line is kept). */
  predicate IsListed(line: string)
  {
    Trim(line) != "" && !(line != [] && line[0] == '#')
  }

  /** `envContent.split("\n").filter(...)`. */
  function ListedLines(content: string): seq<string>
  {
    Filter(Split(content, '\n'), IsListed)
  }

  /** `const [key] = line.split("=")`. */
  function RawKey(line: string): string
  {
    Split(line, '=')[0]
  }

  /** The name printed for a line: the raw key trimmed, when the raw key is not empty. */
  function KeyOf(line: string): Option<string>
  {
    var key := RawKey(line);
    if key != "" then Some(Trim(key)) else None
  }

  /** The names printed for the listed lines, in order. */
  function KeysOf(lines: seq<string>): (keys: seq<string>)
    ensures |keys| <= |lines|
    decreases |lines|
  {
    if lines == [] then []
    else
      var last := KeyOf(lines[|lines| - 1]);
      KeysOf(lines[..|lines| - 1]) + (if last.Some? then [last.value] else [])
  }

  /** The script's report for the two variables and the file. */
  function Check(url: Option<string>, key: Option<string>, file: EnvFile): Report
  {
    Report(
      Truthy(url),
      Truthy(key),
      if Truthy(url) then Some(Echo(url.value, UrlEchoLength)) else None,
      if Truthy(key) then Some(Echo(key.value, KeyEchoLength)) else None,
      !file.Missing?,
      if file.Content? then Some(KeysOf(ListedLines(file.text))) else None,
      if file.Unreadable? then Some(file.message) else None,
      if file.Missing? || !Truthy(url) || !Truthy(key) then FixSteps else LooksCorrect)
  }

  /** A line of the file is listed iff it is not blank and does not start with "#", and the
      listed lines keep their order. */
  lemma ListedExact(content: string, line: string)
    ensures line in ListedLines(content)
            <==> line in Split(content, '\n') && Trim(line) != "" && !(line != [] && line[0] == '#')
    ensures IsSubsequence(ListedLines(content), Split(content, '\n'))
  {
    FilterMembers(Split(content, '\n'), IsListed, line);
    FilterIsSubsequence(Split(content, '\n'), IsListed);
  }

  /** A blank line is dropped, and a line is dropped for "#" only in its first column. */
  lemma ListedOnlyByFirstColumn(line: string)
    ensures (forall i :: 0 <= i < |line| ==> IsJsSpace(line[i])) ==> !IsListed(line)
    ensures (exists i :: 0 <= i < |line| && !IsJsSpace(line[i])) && (line == [] || line[0] != '#')
            ==> IsListed(line)
  {
    TrimEmptyIff(line);
  }

  /** The name is the text before the first "=", trimmed: nothing for a line starting with
      "=", the whole line trimmed for a line without "=". */
  lemma KeyBeforeFirstEquals(line: string)
    ensures var i := IndexOf(line, '=');
            KeyOf(line) == if i == 0 then None else Some(Trim(line[..i]))
    ensures line != [] && line[0] == '=' ==> KeyOf(line) == None
    ensures '=' !in line && line != [] ==> KeyOf(line) == Some(Trim(line))
  {
    SplitHead(line, '=');
    assert line[..|line|] == line;
  }

  /** A key of blanks before the "=" passes the test and prints as an empty name. */
  lemma BlankKeyPrintsEmpty(line: string, i: nat)
    requires 0 < i < |line| && line[i] == '='
    requires forall j :: 0 <= j < i ==> IsJsSpace(line[j])
    ensures KeyOf(line) == Some("")
  {
    KeyBeforeFirstEquals(line);
    assert IndexOf(line, '=') == i by {
      assert forall j :: 0 <= j < i ==> line[j] != '=';
      assert line[..i + 1][i] == '=';
    }
    TrimEmptyIff(line[..i]);
  }

  /** Every printed name comes from a listed line with a non-empty raw key, and every such
      line prints its name. */
  lemma {:induction false} KeysOfExact(lines: seq<string>, k: string)
    ensures k in KeysOf(lines) <==> exists i :: 0 <= i < |lines| && KeyOf(lines[i]) == Some(k)
    decreases |lines|
  {
    if lines != [] {
      var init := lines[..|lines| - 1];
      KeysOfExact(init, k);
      if exists i :: 0 <= i < |lines| && KeyOf(lines[i]) == Some(k) {
        var i :| 0 <= i < |lines| && KeyOf(lines[i]) == Some(k);
        if i < |lines| - 1 {
          assert init[i] == lines[i];
        }
      }
      if k in KeysOf(init) {
        var i :| 0 <= i < |init| && KeyOf(init[i]) == Some(k);
        assert lines[i] == init[i];
      }
    }
  }

  /** The fix steps print iff the file is missing or either variable is unset; an unreadable
      file still counts as present. */
  lemma InstructionsDecision(url: Option<string>, key: Option<string>, file: EnvFile)
    ensures Check(url, key, file).instructions == FixSteps
            <==> file == Missing || !Truthy(url) || !Truthy(key)
    ensures Check(url, key, file).fileExists <==> file != Missing
    ensures Check(url, key, file).variables.Some? <==> file.Content?
  {
  }

  /** The echoes appear only for set variables, cut to 30 and 20 characters before the
      "...". */
  lemma EchoesBounded(url: Option<string>, key: Option<string>, file: EnvFile)
    ensures var r := Check(url, key, file);
            && (r.urlEcho.Some? <==> Truthy(url))
            && (r.keyEcho.Some? <==> Truthy(key))
            && (r.urlEcho.Some? ==> |r.urlEcho.value| <= UrlEchoLength + 3 && r.urlEcho.value[..|r.urlEcho.value| - 3] <= url.value)
            && (r.keyEcho.Some? ==> |r.keyEcho.value| <= KeyEchoLength + 3 && r.keyEcho.value[..|r.keyEcho.value| - 3] <= key.value)
  {
  }
}
