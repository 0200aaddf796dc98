/**
 * How both stream readers (the chat page and the command-line script) cut what
 * they read into candidate lines: each chunk on its own is split on "\n" and
 * the blank pieces are dropped. Only lines starting with `data: ` carry a frame
 * of the server-sent-events format (section 9.2 of the WHATWG HTML Living
 * Standard), of which only single `data: ` lines are understood.
 */
module EventStream {
  import opened JsText

  /** The field name and separator that open a frame line. */
  const DataPrefix := "data: "

  /** `lines.filter((line) => line.trim())`: the lines whose trimmed form is not empty, in order. */
  function NonBlank(lines: seq<string>): (r: seq<string>)
    ensures |r| <= |lines|
  {
    if lines == [] then []
    else
      var last := lines[|lines| - 1];
      NonBlank(lines[..|lines| - 1]) + (if Trim(last) != "" then [last] else [])
  }

  /** The filter keeps exactly the lines that are not blank. */
  lemma {:induction false} NonBlankKeeps(lines: seq<string>)
    ensures forall l :: l in NonBlank(lines) <==> l in lines && Trim(l) != ""
  {
    if lines != [] {
      var init := lines[..|lines| - 1];
      NonBlankKeeps(init);
      assert lines == init + [lines[|lines| - 1]];
    }
  }

  /** Filtering distributes over appending lists. */
  lemma {:induction false} NonBlankAppend(a: seq<string>, b: seq<string>)
    ensures NonBlank(a + b) == NonBlank(a) + NonBlank(b)
  {
    if b == [] {
      assert a + b == a;
    } else {
      NonBlankAppend(a, b[..|b| - 1]);
      assert (a + b)[..|a + b| - 1] == a + b[..|b| - 1];
      assert (a + b)[|a + b| - 1] == b[|b| - 1];
    }
  }

  /** `chunk.split("\n").filter((line) => line.trim())`: the candidate lines of one chunk. */
  function SelectLines(chunk: string): seq<string> {
    NonBlank(Split(chunk, '\n'))
  }

  /** The candidate lines of a chunk are its pieces between line breaks that are not blank. */
  lemma SelectLinesMembers(chunk: string)
    ensures forall l :: l in SelectLines(chunk) <==> l in Split(chunk, '\n') && !Blank(l)
    ensures forall l :: l in SelectLines(chunk) ==> '\n' !in l
  {
    var pieces := Split(chunk, '\n');
    NonBlankKeeps(pieces);
    forall l | l in pieces
      ensures Trim(l) != "" <==> !Blank(l)
    {
      TrimEmptyIffBlank(l);
    }
    SplitPiecesLackSeparator(chunk, '\n');
  }

  /** A chunk that is one non-blank line without a line break is read as that line. */
  lemma OneLine(line: string)
    requires forall i :: 0 <= i < |line| ==> line[i] != '\n'
    requires !Blank(line)
    ensures SelectLines(line) == [line]
  {
    SplitWithoutSeparator(line, '\n');
    TrimEmptyIffBlank(line);
    assert [line][..0] == [];
  }

  /** A non-blank line followed by an empty line, as a frame is written, is read as that line alone. */
  lemma LineThenBlankLine(line: string)
    requires forall i :: 0 <= i < |line| ==> line[i] != '\n'
    requires !Blank(line)
    ensures SelectLines(line + "\n\n") == [line]
  {
    var empty: string := [];
    assert line + "\n\n" == line + ['\n'] + (empty + ['\n'] + empty);
    SplitAtSeparator(empty, empty, '\n');
    SplitAtSeparator(line, empty + ['\n'] + empty, '\n');
    SplitWithoutSeparator(line, '\n');
    assert Split(line + "\n\n", '\n') == [line] + [""] + [""];
    NonBlankAppend([line] + [""], [""]);
    NonBlankAppend([line], [""]);
    assert NonBlank([""]) == [] by { assert Trim("") == ""; }
    assert NonBlank([line]) == [line] by {
      TrimEmptyIffBlank(line);
      assert [line][..0] == [];
    }
  }

  /** The candidate lines of a list of chunks, chunk after chunk; no line is ever joined across two chunks. */
  function AllLines(chunks: seq<string>): seq<string> {
    ConcatMap(SelectLines, chunks)
  }

  /** A text that is empty or ends with a line break: cutting right after it cuts between lines. */
  predicate EndsLine(s: string) {
    s == [] || s[|s| - 1] == '\n'
  }

  /** Two texts joined after a line break give the lines of each, in order. */
  lemma SelectLinesAppend(a: string, b: string)
    requires EndsLine(a)
    ensures SelectLines(a + b) == SelectLines(a) + SelectLines(b)
  {
    if a == [] {
      assert a + b == b;
      assert SelectLines(a) == [] by {
        assert Split(a, '\n') == [""];
        assert Trim("") == "";
      }
    } else {
      var init := a[..|a| - 1];
      assert a == init + ['\n'] + "";
      assert a + b == init + ['\n'] + b;
      SplitAtSeparator(init, b, '\n');
      SplitAtSeparator(init, "", '\n');
      assert Split("", '\n') == [""];
      NonBlankAppend(Split(init, '\n'), Split(b, '\n'));
      NonBlankAppend(Split(init, '\n'), [""]);
      assert NonBlank([""]) == [] by { assert Trim("") == ""; }
      assert NonBlank(Split(init, '\n') + [""]) == NonBlank(Split(init, '\n'));
    }
  }

  /** Concatenating texts that each end a line gives a text that ends a line. */
  lemma {:induction false} ConcatEndsLine(chunks: seq<string>)
    requires forall i :: 0 <= i < |chunks| ==> EndsLine(chunks[i])
    ensures EndsLine(Concat(chunks))
  {
    if chunks != [] {
      ConcatEndsLine(chunks[..|chunks| - 1]);
    }
  }

  /**
   * When every chunk but the last ends a line, reading chunk by chunk finds the
   * same lines as reading the whole text at once: the chunking does not matter.
   */
  lemma {:induction false} AlignedChunksLines(chunks: seq<string>)
    requires forall i :: 0 <= i < |chunks| - 1 ==> EndsLine(chunks[i])
    ensures AllLines(chunks) == SelectLines(Concat(chunks))
  {
    if chunks == [] {
      assert SelectLines("") == [] by {
        assert Split("", '\n') == [""];
        assert Trim("") == "";
      }
    } else {
      var init := chunks[..|chunks| - 1];
      AlignedChunksLines(init);
      assert AllLines(chunks) == AllLines(init) + SelectLines(chunks[|chunks| - 1]);
      ConcatEndsLine(init);
      SelectLinesAppend(Concat(init), chunks[|chunks| - 1]);
    }
  }
}
