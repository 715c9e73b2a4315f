// gov/stdlib/loader.go: the standard library is a set of `.mn` source
// files; each is cut into functions at the lines that start with the
// function keyword, and the text of every function is kept by name.
// Reading the directory and the files (Load) is not part of this model.
module Loader {
  import opened GoStrings

  /** The keyword that opens a function header line (loader.go:56). */
  const FnKeyword: string := "функц"

  /** The loop state of parseFile: the functions so far, the name of the
      function being read ("" before the first header) and its text. */
  datatype ParseState = ParseState(functions: map<string, string>, name: string, body: string)

  /** The name a header line gives: the second field cut at the first `(`,
      and the previous name when the header has fewer than two fields
      (loader.go:64-69). */
  function HeaderName(line: string, previous: string): (r: string)
    ensures r == previous || '(' !in r
  {
    var parts := Fields(line);
    if |parts| >= 2 then Before(parts[1], '(') else previous
  }

  /** One pass of the line loop of parseFile (loader.go:47-77). */
  function Step(st: ParseState, raw: string): ParseState
  {
    StepLine(st, TrimSpace(raw))
  }

  /** The pass for the line once trimmed. */
  function StepLine(st: ParseState, line: string): ParseState
  {
    if HasPrefix(line, "//") || line == "" then st
    else
      var named := Named(st, line);
      if named.name != "" then named.(body := named.body + line + "\n") else named
  }

  /** The state after a header line has saved the function being read and
      taken its own name; any other line leaves it as it is. */
  function Named(st: ParseState, line: string): ParseState
  {
    if !HasPrefix(line, FnKeyword) then st
    else if st.name != "" then ParseState(st.functions[st.name := st.body], HeaderName(line, st.name), "")
    else st.(name := HeaderName(line, st.name))
  }

  /** The loop over the lines, as a fold from the left. */
  function StepAll(st: ParseState, lines: seq<string>): ParseState
  {
    if lines == [] then st else Step(StepAll(st, lines[..|lines| - 1]), lines[|lines| - 1])
  }

  lemma StepAllSnoc(st: ParseState, lines: seq<string>, i: nat)
    requires i < |lines|
    ensures StepAll(st, lines[..i + 1]) == Step(StepAll(st, lines[..i]), lines[i])
  {
    assert lines[..i + 1][..i] == lines[..i];
  }

  /** The final save after the loop (loader.go:79-82). */
  function Finish(st: ParseState): map<string, string>
  {
    if st.name != "" then st.functions[st.name := st.body] else st.functions
  }

  /** What parseFile leaves in the function map. */
  function ParseFile(functions: map<string, string>, content: string): map<string, string>
  {
    Finish(StepAll(ParseState(functions, "", ""), Split(content, '\n')))
  }

  /** While a function is being read, its name has no `(` and its text
      begins with its header line; every entry the loop adds has such a
      name and such a text. */
  ghost predicate Stored(old_: map<string, string>, st: ParseState)
  {
    && (st.name != "" ==> '(' !in st.name && HasPrefix(st.body, FnKeyword))
    && (st.name == "" ==> st.body == "")
    && forall k :: k in st.functions ==>
        (k in old_ && st.functions[k] == old_[k]) || (k != "" && '(' !in k && HasPrefix(st.functions[k], FnKeyword))
  }

  lemma StepStored(old_: map<string, string>, st: ParseState, raw: string)
    requires Stored(old_, st)
    ensures Stored(old_, Step(st, raw))
  {
    StepLineStored(old_, st, TrimSpace(raw));
  }

  lemma StepLineStored(old_: map<string, string>, st: ParseState, line: string)
    requires Stored(old_, st)
    ensures Stored(old_, StepLine(st, line))
  {
    if !(HasPrefix(line, "//") || line == "") && HasPrefix(line, FnKeyword) {
      var out := StepLine(st, line);
      if out.name != "" {
        assert out.body == line + "\n";
        assert out.body[..|FnKeyword|] == line[..|FnKeyword|];
      }
    } else if !(HasPrefix(line, "//") || line == "") && st.name != "" {
      assert StepLine(st, line).body[..|FnKeyword|] == st.body[..|FnKeyword|];
    }
  }

  lemma {:induction false} StepAllStored(old_: map<string, string>, st: ParseState, lines: seq<string>)
    requires Stored(old_, st)
    ensures Stored(old_, StepAll(st, lines))
  {
    if lines != [] {
      StepAllStored(old_, st, lines[..|lines| - 1]);
      StepStored(old_, StepAll(st, lines[..|lines| - 1]), lines[|lines| - 1]);
    }
  }

  /** Every function parseFile adds or replaces is stored under a
      non-empty name without `(`, and its text starts with its header. */
  lemma ParseFileStored(functions: map<string, string>, content: string)
    ensures var r := ParseFile(functions, content);
      forall k :: k in r ==>
        (k in functions && r[k] == functions[k]) || (k != "" && '(' !in k && HasPrefix(r[k], FnKeyword))
  {
    StepAllStored(functions, ParseState(functions, "", ""), Split(content, '\n'));
  }

  predicate IsHeader(raw: string) { HasPrefix(TrimSpace(raw), FnKeyword) }

  /** Lines before the first header are dropped: without any header line
      the loop keeps no name and adds nothing. */
  lemma {:induction false} NoHeaderKeepsState(functions: map<string, string>, lines: seq<string>)
    requires forall k :: 0 <= k < |lines| ==> !IsHeader(lines[k])
    ensures StepAll(ParseState(functions, "", ""), lines) == ParseState(functions, "", "")
  {
    if lines != [] {
      NoHeaderKeepsState(functions, lines[..|lines| - 1]);
    }
  }

  lemma NoHeaderNoFunctions(functions: map<string, string>, content: string)
    requires forall k :: 0 <= k < |Split(content, '\n')| ==> !IsHeader(Split(content, '\n')[k])
    ensures ParseFile(functions, content) == functions
  {
    NoHeaderKeepsState(functions, Split(content, '\n'));
  }

  /** A header line first saves the function being read under its name,
      replacing any text stored under that name before, and then starts
      the next function with the header as its first line. */
  lemma HeaderSavesCurrent(st: ParseState, raw: string)
    requires IsHeader(raw) && st.name != ""
    ensures Step(st, raw).functions == st.functions[st.name := st.body]
    ensures Step(st, raw).functions[st.name] == st.body
    ensures var n := Step(st, raw).name;
      n == HeaderName(TrimSpace(raw), st.name) && (n != "" ==> Step(st, raw).body == TrimSpace(raw) + "\n")
  {
    HeaderLineSaves(st, TrimSpace(raw));
  }

  lemma HeaderLineSaves(st: ParseState, line: string)
    requires HasPrefix(line, FnKeyword) && st.name != ""
    ensures StepLine(st, line).functions == st.functions[st.name := st.body]
    ensures var n := StepLine(st, line).name;
      n == HeaderName(line, st.name) && (n != "" ==> StepLine(st, line).body == line + "\n")
  {
    assert line != "" by {
      assert |FnKeyword| == 5;
    }
    assert line[..2] != "//" by {
      assert line[0] == line[..|FnKeyword|][0] == FnKeyword[0] != '/';
    }
  }

  class StandardLibrary {
    var functions: map<string, string>

    /** New (loader.go:14-19). */
    constructor ()
      ensures functions == map[]
    {
      functions := map[];
    }

    /** parseFile (loader.go:41-83). */
    method ParseFileInto(content: string)
      modifies this
      ensures functions == ParseFile(old(functions), content)
    {
      var lines := Split(content, '\n');
      var currentFunc := "";
      var currentFuncName := "";
      var i := 0;
      while i < |lines|
        invariant 0 <= i <= |lines|
        invariant ParseState(functions, currentFuncName, currentFunc)
          == StepAll(ParseState(old(functions), "", ""), lines[..i])
      {
        ghost var prev := ParseState(functions, currentFuncName, currentFunc);
        StepAllSnoc(ParseState(old(functions), "", ""), lines, i);
        var line := TrimSpace(lines[i]);
        if HasPrefix(line, "//") || line == "" {
          assert Step(prev, lines[i]) == prev;
          i := i + 1;
          continue;
        }
        if HasPrefix(line, FnKeyword) {
          if currentFuncName != "" {
            functions := functions[currentFuncName := currentFunc];
            currentFunc := "";
          }
          var parts := Fields(line);
          if |parts| >= 2 {
            currentFuncName := parts[1];
            currentFuncName := Before(currentFuncName, '(');
          }
          assert currentFuncName == HeaderName(line, prev.name);
        }
        ghost var named := ParseState(functions, currentFuncName, currentFunc);
        assert named == Named(prev, line);
        if currentFuncName != "" {
          currentFunc := currentFunc + line;
          currentFunc := currentFunc + "\n";
        }
        assert ParseState(functions, currentFuncName, currentFunc) == Step(prev, lines[i]);
        i := i + 1;
      }
      assert lines[..i] == lines;
      if currentFuncName != "" {
        functions := functions[currentFuncName := currentFunc];
      }
    }

    /** GetFunction (loader.go:85-89): the text and whether it exists. */
    function GetFunction(name: string): (r: (string, bool))
      reads this
      ensures r.1 <==> name in functions
      ensures r.1 ==> r.0 == functions[name]
      ensures !r.1 ==> r.0 == ""
    {
      if name in functions then (functions[name], true) else ("", false)
    }

    /** IsStdLibFunction (loader.go:91-95) holds exactly when GetFunction
        finds the name. */
    predicate IsStdLibFunction(name: string)
      reads this
      ensures IsStdLibFunction(name) <==> GetFunction(name).1
    {
      name in functions
    }
  }
}
