/**
 * The code-block scanner of api/agents.py (`CoderAgent._extract_code_blocks`,
 * api/agents.py:163-192). It walks the reply line by line, tracking whether it is inside a
 * fenced block, which file the block names (a `# name.html` or `/* name */` line), and the
 * lines collected so far; a closing fence stores the collected lines under the named file.
 * What it returns ignores all of that: the whole reply as HTML, with empty CSS and JS.
 */
module AgentsCode {
  import opened Wrappers
  import opened Text

  const FENCE := "```"
  const HTML_MARK := "# "
  const HTML_EXT := ".html"
  const CSS_OPEN := "/* "
  const CSS_CLOSE := " */"

  /** The dictionary `_extract_code_blocks` returns. */
  datatype CodeBlocks = CodeBlocks(html: string, css: string, js: string)

  /** The scan's local variables: `in_code_block`, `current_file`, `current_code`, `code_blocks`. */
  datatype ScanState = ScanState(inCode: bool, file: Option<string>, code: seq<string>, blocks: map<string, string>)

  const SCAN_START := ScanState(false, None, [], map[])

  predicate IsFence(line: string) {
    StartsWith(Strip(line), FENCE)
  }

  predicate IsHtmlMarker(line: string) {
    StartsWith(Strip(line), HTML_MARK) && EndsWith(Strip(line), HTML_EXT)
  }

  predicate IsCssMarker(line: string) {
    StartsWith(Strip(line), CSS_OPEN) && EndsWith(Strip(line), CSS_CLOSE)
  }

  /** Python's `s[3:-3]`: empty when the two ends overlap. */
  function Inner(s: string): (r: string)
    ensures |s| >= 6 ==> s == s[..3] + r + s[|s| - 3..]
    ensures |s| < 6 ==> r == ""
  {
    if |s| >= 6 then s[3..|s| - 3] else ""
  }

  /** `if current_file:`: `None` and the empty name are falsy. */
  predicate Named(file: Option<string>) {
    file.Some? && file.value != ""
  }

  /** One iteration of the `for line in lines` loop. */
  function Step(st: ScanState, line: string): ScanState {
    if IsFence(line) then
      if st.inCode then
        var blocks := if Named(st.file) then st.blocks[st.file.value := Join(st.code, '\n')] else st.blocks;
        ScanState(false, st.file, [], blocks)
      else
        st.(inCode := true)
    else if st.inCode then
      if IsHtmlMarker(line) then st.(file := Some(Strip(line)[|HTML_MARK|..]))
      else if IsCssMarker(line) then st.(file := Some(Inner(Strip(line))))
      else st.(code := st.code + [line])
    else
      st
  }

  /** The state after the loop has seen `lines`, in order. */
  function Scan(lines: seq<string>): ScanState {
    if lines == [] then SCAN_START
    else Step(Scan(lines[..|lines| - 1]), lines[|lines| - 1])
  }

  /** What holds of the scan state before and after every line: outside a block nothing is
      being collected, no collected line is a fence or a file marker, and every stored file
      has a non-empty name. */
  ghost predicate Coherent(st: ScanState) {
    && (!st.inCode ==> st.code == [])
    && (forall k :: 0 <= k < |st.code| ==> !IsFence(st.code[k]) && !IsHtmlMarker(st.code[k]) && !IsCssMarker(st.code[k]))
    && (forall name :: name in st.blocks ==> name != "")
  }

  lemma StepCoherent(st: ScanState, line: string)
    requires Coherent(st)
    ensures Coherent(Step(st, line))
  {
  }

  lemma {:induction false} ScanCoherent(lines: seq<string>)
    ensures Coherent(Scan(lines))
  {
    if lines != [] {
      ScanCoherent(lines[..|lines| - 1]);
      StepCoherent(Scan(lines[..|lines| - 1]), lines[|lines| - 1]);
    }
  }

  /** How many of `lines` are fences. */
  function Fences(lines: seq<string>): nat {
    if lines == [] then 0
    else Fences(lines[..|lines| - 1]) + (if IsFence(lines[|lines| - 1]) then 1 else 0)
  }

  /** Fences alternate: the scan is inside a block exactly after an odd number of them. */
  lemma {:induction false} ScanFenceParity(lines: seq<string>)
    ensures Scan(lines).inCode <==> Fences(lines) % 2 == 1
  {
    if lines != [] {
      ScanFenceParity(lines[..|lines| - 1]);
    }
  }

  /** A closing fence stores what was collected under the named file (when the name is not
      empty) and starts collecting afresh; the file name carries over to the next block. */
  lemma ClosingFenceStores(st: ScanState, line: string)
    requires st.inCode && IsFence(line)
    ensures var next := Step(st, line);
      && !next.inCode && next.code == [] && next.file == st.file
      && (Named(st.file) ==> next.blocks == st.blocks[st.file.value := Join(st.code, '\n')])
      && (!Named(st.file) ==> next.blocks == st.blocks)
  {
  }

  /** Without any fence nothing is collected and nothing is stored. */
  lemma {:induction false} NoFenceNoBlocks(lines: seq<string>)
    requires forall k :: 0 <= k < |lines| ==> !IsFence(lines[k])
    ensures Scan(lines) == SCAN_START
  {
    if lines != [] {
      NoFenceNoBlocks(lines[..|lines| - 1]);
    }
  }

  /** A `/* name */` marker names `name`; the bare `/* */` marker names the empty file,
      whose block is then never stored. */
  lemma CssMarkerName(name: string)
    ensures IsCssMarker(CSS_OPEN + name + CSS_CLOSE) ==> Inner(Strip(CSS_OPEN + name + CSS_CLOSE)) == name
    ensures Inner("/* */") == "" && !Named(Some(Inner("/* */")))
  {
    var s := CSS_OPEN + name + CSS_CLOSE;
    if IsCssMarker(s) {
      StripUnchanged(s);
      assert Strip(s) == s;
      assert s[3..|s| - 3] == name;
    }
  }

  /** The scan the loop performs, line by line. */
  method ScanLines(content: string) returns (st: ScanState)
    ensures st == Scan(Split(content, '\n'))
    ensures Coherent(st)
  {
    var lines := Split(content, '\n');
    st := SCAN_START;
    var i := 0;
    while i < |lines|
      invariant 0 <= i <= |lines|
      invariant st == Scan(lines[..i])
    {
      assert lines[..i + 1][..i] == lines[..i];
      st := Step(st, lines[i]);
      i := i + 1;
    }
    assert lines[..|lines|] == lines;
    ScanCoherent(lines);
  }

  /** `_extract_code_blocks(content)`: the scan runs, and its result is discarded. */
  method ExtractCodeBlocks(content: string) returns (r: CodeBlocks)
    ensures r.html == content && r.css == "" && r.js == ""
  {
    var scanned := ScanLines(content);
    r := CodeBlocks(content, "", "");
  }
}
