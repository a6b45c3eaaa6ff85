/**
 * Chef::Util::Diff (lib/chef/util/diff.rb): the safety policy around an
 * external `diff -u`. The tool itself is an oracle: the model only sees what
 * it printed or the exception it raised.
 */
module Diff {
  import opened Wrappers
  import opened FileSystem
  import Lines

  datatype DiffConfig = DiffConfig(diffDisabled: bool, filesizeThreshold: nat, outputThreshold: nat)

  /** What `shell_out("diff -u old new")` gave: its two output streams, or the exception it raised. */
  datatype ShellOut = Completed(stdout: string, stderr: string) | Raised(message: string)

  /** Why no diff is shown: each `throw :nodiff` of `do_diff`. */
  datatype Suppression =
    | DisabledByConfig
    | SizesExceed(threshold: nat)
    | CurrentIsBinary
    | NewIsBinary
    | ToolRaised(message: string)
    | LongDiff(threshold: nat)
    | ToolStderr(message: string)
    | NoDiff

  /** What `catch (:nodiff) { do_diff }` gives back: a thrown reason, or do_diff's return value with the lines it stored. */
  datatype Caught = Thrown(reason: Suppression) | Returned(deleted: Option<string>, lines: seq<string>)

  /** What escapes `diff`: a missing input, or an error `catch (:nodiff)` does not stop. */
  datatype DiffError = OldFileMissing(path: Path) | NewFileMissing(path: Path) | ReadFailed(error: FsError)

  const NoNewlineMarker: string := "\\ No newline at end of file"

  function Digit(d: nat): (r: char)
    requires d < 10
  {
    "0123456789"[d]
  }

  /** Decimal rendering of a threshold, as string interpolation gives it. */
  function NatToString(n: nat): (r: string)
    decreases n
  {
    if n < 10 then [Digit(n)] else NatToString(n / 10) + [Digit(n % 10)]
  }

  function Message(reason: Suppression): (r: string)
  {
    match reason
    case DisabledByConfig => "(diff output suppressed by config)"
    case SizesExceed(t) => "(file sizes exceed " + NatToString(t) + " bytes, diff output suppressed)"
    case CurrentIsBinary => "(current file is binary, diff output suppressed)"
    case NewIsBinary => "(new content is binary, diff output suppressed)"
    case ToolRaised(m) => "Could not determine diff. Error: " + m
    case LongDiff(t) => "(long diff of over " + NatToString(t) + " characters, diff output suppressed)"
    case ToolStderr(m) => "Could not determine diff. Error: " + m
    case NoDiff => "(no diff)"
  }

  // ---------------------------------------------------------------------------
  // is_binary?

  const Newline: byte := 10

  /** `[\r[:print:]]` on a binary string: carriage return or a byte from space to tilde. */
  predicate PrintOrCR(b: byte)
  {
    b == 13 || (0x20 <= b <= 0x7E)
  }

  predicate AllPrintable(s: seq<byte>)
  {
    forall k :: 0 <= k < |s| ==> PrintOrCR(s[k])
  }

  /**
   * `buff[i..j]` is printable and bounded on each side by an end of the
   * string or a newline.
   */
  predicate SpanBetweenNewlines(buff: seq<byte>, i: int, j: int)
  {
    && 0 <= i <= j <= |buff|
    && (i == 0 || buff[i - 1] == Newline)
    && (j == |buff| || buff[j] == Newline)
    && forall k :: i <= k < j ==> PrintOrCR(buff[k])
  }

  /**
   * The regular expression `^[\r[:print:]]*$` matches `buff[i..j]`. Ruby's `^`
   * holds at the start, or after a newline that is not the last byte; `$`
   * holds at the end or before a newline.
   */
  predicate TextLineAt(buff: seq<byte>, i: int, j: int)
  {
    SpanBetweenNewlines(buff, i, j) && (i == 0 || i < |buff|)
  }

  /** `buff =~ /^[\r[:print:]]*$/` */
  predicate RegexMatches(buff: seq<byte>)
  {
    exists i, j | 0 <= i <= j <= |buff| :: TextLineAt(buff, i, j)
  }

  ghost predicate HasSpan(buff: seq<byte>)
  {
    exists i, j | 0 <= i <= j <= |buff| :: SpanBetweenNewlines(buff, i, j)
  }

  /** The lines `^` can start: the fields between newlines, where a final newline ends the last line instead of opening an empty one. */
  function SampleLines(buff: seq<byte>): (r: seq<seq<byte>>)
    ensures |r| >= 1 && forall k :: 0 <= k < |r| ==> Newline !in r[k]
  {
    if |buff| > 0 && buff[|buff| - 1] == Newline then Lines.Split(buff[..|buff| - 1], Newline)
    else Lines.Split(buff, Newline)
  }

  /** `file.read(threshold)`, with an empty read (nil) taken as "". */
  function Sample(content: Content, threshold: nat): (r: Content)
    ensures |r| <= threshold && r <= content
    ensures |content| <= threshold ==> r == content
  {
    if |content| <= threshold then content else content[..threshold]
  }

  /** `is_binary?` */
  predicate IsBinary(content: Content, threshold: nat)
  {
    !RegexMatches(Sample(content, threshold))
  }

  lemma ShiftTextLine(b: seq<byte>, i: nat, j: nat)
    requires |b| >= 1
    ensures SpanBetweenNewlines(b, i + 1, j + 1) <==> SpanBetweenNewlines(b[1..], i, j) && (i == 0 ==> b[0] == Newline)
  {
    if SpanBetweenNewlines(b[1..], i, j) {
      assert forall k :: i + 1 <= k < j + 1 ==> b[k] == b[1..][k - 1];
    }
    if SpanBetweenNewlines(b, i + 1, j + 1) {
      assert forall k :: i <= k < j ==> b[1..][k] == b[k + 1];
    }
  }

  /** The first newline-delimited line is all printable exactly when a printable span starts the buffer. */
  lemma {:induction false} FirstLineText(b: seq<byte>)
    ensures AllPrintable(Lines.Split(b, Newline)[0]) <==> exists j :: SpanBetweenNewlines(b, 0, j)
    decreases |b|
  {
    if |b| == 0 || b[0] == Newline {
      assert SpanBetweenNewlines(b, 0, 0);
    } else {
      var rest := Lines.Split(b[1..], Newline);
      var first := [b[0]] + rest[0];
      assert Lines.Split(b, Newline)[0] == first;
      FirstLineText(b[1..]);
      if AllPrintable(first) {
        assert AllPrintable(rest[0]) by {
          forall k | 0 <= k < |rest[0]| ensures PrintOrCR(rest[0][k]) {
            assert rest[0][k] == first[k + 1];
          }
        }
        var j' :| SpanBetweenNewlines(b[1..], 0, j');
        ShiftTextLine(b, 0, j');
        assert SpanBetweenNewlines(b, 0, j' + 1) by {
          assert PrintOrCR(b[0]) by { assert first[0] == b[0]; }
        }
      }
      if exists j :: SpanBetweenNewlines(b, 0, j) {
        var j :| SpanBetweenNewlines(b, 0, j);
        assert j >= 1;
        assert PrintOrCR(b[0]);
        assert SpanBetweenNewlines(b[1..], 0, j - 1) by {
          assert forall k :: 0 <= k < j - 1 ==> b[1..][k] == b[k + 1];
        }
        assert AllPrintable(rest[0]);
        assert AllPrintable(first) by {
          forall k | 0 <= k < |first| ensures PrintOrCR(first[k]) {
            if k > 0 { assert first[k] == rest[0][k - 1]; }
          }
        }
      }
    }
  }

  ghost predicate LaterLineText(b: seq<byte>)
  {
    var s := Lines.Split(b, Newline);
    exists k :: 1 <= k < |s| && AllPrintable(s[k])
  }

  ghost predicate MatchAfterNewline(b: seq<byte>)
  {
    exists i, j :: 1 <= i && SpanBetweenNewlines(b, i, j)
  }

  /** Inductive step of LaterLinesText when the buffer starts with a newline: every line of the tail is a later line. */
  lemma LaterLinesAfterNewline(b: seq<byte>)
    requires |b| >= 1 && b[0] == Newline
    requires AllPrintable(Lines.Split(b[1..], Newline)[0]) <==> exists j :: SpanBetweenNewlines(b[1..], 0, j)
    requires LaterLineText(b[1..]) <==> MatchAfterNewline(b[1..])
    ensures LaterLineText(b) <==> MatchAfterNewline(b)
  {
    var s := Lines.Split(b, Newline);
    var rest := Lines.Split(b[1..], Newline);
    assert s == [[]] + rest;
    if LaterLineText(b) {
      var k :| 1 <= k < |s| && AllPrintable(s[k]);
      assert s[k] == rest[k - 1];
      if k == 1 {
        var j' :| SpanBetweenNewlines(b[1..], 0, j');
        ShiftTextLine(b, 0, j');
        assert SpanBetweenNewlines(b, 1, j' + 1);
      } else {
        assert 1 <= k - 1 < |rest| && AllPrintable(rest[k - 1]);
        var i', j' :| 1 <= i' && SpanBetweenNewlines(b[1..], i', j');
        ShiftTextLine(b, i', j');
        assert SpanBetweenNewlines(b, i' + 1, j' + 1);
      }
    }
    if MatchAfterNewline(b) {
      var i, j :| 1 <= i && SpanBetweenNewlines(b, i, j);
      ShiftTextLine(b, i - 1, j - 1);
      if i == 1 {
        assert AllPrintable(s[1]) by { assert s[1] == rest[0]; }
      } else {
        assert MatchAfterNewline(b[1..]);
        var k' :| 1 <= k' < |rest| && AllPrintable(rest[k']);
        assert s[k' + 1] == rest[k'];
        assert 1 <= k' + 1 < |s| && AllPrintable(s[k' + 1]);
      }
    }
  }

  /** Inductive step of LaterLinesText when the buffer starts with another byte: the later lines are the tail's later lines. */
  lemma LaterLinesAfterText(b: seq<byte>)
    requires |b| >= 1 && b[0] != Newline
    requires LaterLineText(b[1..]) <==> MatchAfterNewline(b[1..])
    ensures LaterLineText(b) <==> MatchAfterNewline(b)
  {
    var s := Lines.Split(b, Newline);
    var rest := Lines.Split(b[1..], Newline);
    assert s == [[b[0]] + rest[0]] + rest[1..];
    if LaterLineText(b) {
      var k :| 1 <= k < |s| && AllPrintable(s[k]);
      assert s[k] == rest[k];
      var i', j' :| 1 <= i' && SpanBetweenNewlines(b[1..], i', j');
      ShiftTextLine(b, i', j');
      assert SpanBetweenNewlines(b, i' + 1, j' + 1);
    }
    if MatchAfterNewline(b) {
      var i, j :| 1 <= i && SpanBetweenNewlines(b, i, j);
      assert i >= 2;
      ShiftTextLine(b, i - 1, j - 1);
      assert MatchAfterNewline(b[1..]);
      var k' :| 1 <= k' < |rest| && AllPrintable(rest[k']);
      assert s[k'] == rest[k'];
    }
  }

  /** Some later line is all printable exactly when a printable span starts right after a newline. */
  lemma {:induction false} LaterLinesText(b: seq<byte>)
    ensures LaterLineText(b) <==> MatchAfterNewline(b)
    decreases |b|
  {
    if |b| == 0 {
      assert Lines.Split(b, Newline) == [[]];
    } else {
      FirstLineText(b[1..]);
      LaterLinesText(b[1..]);
      if b[0] == Newline {
        LaterLinesAfterNewline(b);
      } else {
        LaterLinesAfterText(b);
      }
    }
  }

  /** Some field between newlines is printable exactly when a printable span lies between newlines. */
  lemma SpanIffPrintableField(b: seq<byte>)
    ensures var lines := Lines.Split(b, Newline);
      HasSpan(b) <==> exists k :: 0 <= k < |lines| && AllPrintable(lines[k])
  {
    var lines := Lines.Split(b, Newline);
    FirstLineText(b);
    LaterLinesText(b);
    if HasSpan(b) {
      var i, j :| 0 <= i <= j <= |b| && SpanBetweenNewlines(b, i, j);
      if i == 0 {
        assert AllPrintable(lines[0]);
      } else {
        assert MatchAfterNewline(b);
      }
    }
    if exists k :: 0 <= k < |lines| && AllPrintable(lines[k]) {
      var k :| 0 <= k < |lines| && AllPrintable(lines[k]);
      if k == 0 {
        var j :| SpanBetweenNewlines(b, 0, j);
        assert 0 <= 0 <= j <= |b|;
      } else {
        assert LaterLineText(b);
        var i, j :| 1 <= i && SpanBetweenNewlines(b, i, j);
        assert 0 <= i <= j <= |b|;
      }
      assert HasSpan(b);
    }
  }

  /** Without a final newline every span is a match: only a final newline adds a span `^` cannot start. */
  lemma MatchesWithoutFinalNewline(b: seq<byte>)
    requires |b| == 0 || b[|b| - 1] != Newline
    ensures RegexMatches(b) <==> HasSpan(b)
  {
    if HasSpan(b) {
      var i, j :| 0 <= i <= j <= |b| && SpanBetweenNewlines(b, i, j);
      assert TextLineAt(b, i, j);
    }
  }

  /** After a final newline, the matches are the spans of the sample without it. */
  lemma MatchesBeforeFinalNewline(b: seq<byte>)
    requires |b| > 0 && b[|b| - 1] == Newline
    ensures RegexMatches(b) <==> HasSpan(b[..|b| - 1])
  {
    var c := b[..|b| - 1];
    if RegexMatches(b) {
      var i, j :| 0 <= i <= j <= |b| && TextLineAt(b, i, j);
      assert i < |b|;
      assert !PrintOrCR(b[|b| - 1]);
      assert j < |b|;
      assert SpanBetweenNewlines(c, i, j);
    }
    if HasSpan(c) {
      var i, j :| 0 <= i <= j <= |c| && SpanBetweenNewlines(c, i, j);
      assert TextLineAt(b, i, j);
    }
  }

  /** The regex matches exactly when some line of the buffer is printable. */
  lemma MatchesIffPrintableLine(b: seq<byte>)
    ensures var lines := SampleLines(b);
      RegexMatches(b) <==> exists k :: 0 <= k < |lines| && AllPrintable(lines[k])
  {
    if |b| > 0 && b[|b| - 1] == Newline {
      var c := b[..|b| - 1];
      assert SampleLines(b) == Lines.Split(c, Newline);
      SpanIffPrintableField(c);
      MatchesBeforeFinalNewline(b);
    } else {
      assert SampleLines(b) == Lines.Split(b, Newline);
      SpanIffPrintableField(b);
      MatchesWithoutFinalNewline(b);
    }
  }

  /** `is_binary?` holds exactly when no line of the sample is made only of printable bytes and carriage returns. */
  lemma IsBinaryIffNoTextLine(content: Content, threshold: nat)
    ensures var lines := SampleLines(Sample(content, threshold));
      IsBinary(content, threshold) <==> forall k :: 0 <= k < |lines| ==> !AllPrintable(lines[k])
  {
    MatchesIffPrintableLine(Sample(content, threshold));
  }

  /** An empty file is text. */
  lemma EmptyIsText(threshold: nat)
    ensures !IsBinary([], threshold)
  {
    assert TextLineAt([], 0, 0);
  }

  /** A newline appended to a buffer that does not already end in one opens no new line: the match is unchanged. */
  lemma FinalNewlineChangesNothing(c: seq<byte>)
    requires |c| == 0 || c[|c| - 1] != Newline
    ensures RegexMatches(c + [Newline]) <==> RegexMatches(c)
  {
    var b := c + [Newline];
    assert b[..|b| - 1] == c;
    MatchesBeforeFinalNewline(b);
    MatchesWithoutFinalNewline(c);
  }

  /** A NUL byte followed by a newline is binary: `^` does not match after the final newline. */
  lemma NulLineIsBinary()
    ensures IsBinary([0, 10], 100)
  {
    var b: seq<byte> := [0, 10];
    var c: seq<byte> := [0];
    assert b[..1] == c;
    MatchesBeforeFinalNewline(b);
    assert c[1..] == [];
    assert Lines.Split(c[1..], Newline) == [[]];
    assert [c[0]] + [] == c;
    assert Lines.Split(c, Newline) == [c];
    SpanIffPrintableField(c);
  }

  // ---------------------------------------------------------------------------
  // do_diff

  /** `Array#delete`: every element equal to `x` taken out, the others kept in order. */
  function Without(lines: seq<string>, x: string): (r: seq<string>)
    ensures x !in r
    ensures forall y :: y != x ==> (y in r <==> y in lines)
    ensures multiset(r) == multiset(lines)[x := 0]
    ensures x !in lines ==> r == lines
    decreases |lines|
  {
    if |lines| == 0 then []
    else
      var rest := Without(lines[1..], x);
      assert lines == [lines[0]] + lines[1..];
      if lines[0] == x then rest else [lines[0]] + rest
  }

  /**
   * `Array#delete` keeps order: deleting from a concatenation deletes from each
   * part, and a single element is dropped exactly when it equals `x`. These two
   * facts determine `Without` on every sequence.
   */
  lemma {:induction false} WithoutKeepsOrder(a: seq<string>, b: seq<string>, x: string)
    ensures Without(a + b, x) == Without(a, x) + Without(b, x)
    ensures |a| == 1 ==> Without(a, x) == if a[0] == x then [] else a
    decreases |a|
  {
    if |a| == 0 {
      assert a + b == b;
    } else {
      var ab := a + b;
      assert ab[0] == a[0] && ab[1..] == a[1..] + b;
      WithoutKeepsOrder(a[1..], b, x);
      var rest, tail := Without(a[1..], x), Without(b, x);
      if a[0] == x {
        calc {
          Without(ab, x);
          Without(a[1..] + b, x);
          rest + tail;
          Without(a, x) + tail;
        }
      } else {
        calc {
          Without(ab, x);
          [a[0]] + Without(a[1..] + b, x);
          [a[0]] + (rest + tail);
          ([a[0]] + rest) + tail;
          Without(a, x) + tail;
        }
      }
      if |a| == 1 {
        assert a[1..] == [];
      }
    }
  }

  /** Cutting the lines anywhere, `Without` of the whole is `Without` of the part before the cut followed by that of the part after it. */
  lemma WithoutAnyCut(lines: seq<string>, x: string)
    ensures forall k :: 0 <= k <= |lines| ==> Without(lines, x) == Without(lines[..k], x) + Without(lines[k..], x)
  {
    forall k | 0 <= k <= |lines|
      ensures Without(lines, x) == Without(lines[..k], x) + Without(lines[k..], x)
    {
      assert lines[..k] + lines[k..] == lines;
      WithoutKeepsOrder(lines[..k], lines[k..], x);
    }
  }

  /** `stdout.split("\n")`: the newline-separated fields, less the empty ones at the end. */
  function SplitLines(out: string): (r: seq<string>)
  {
    Lines.DropTrailingEmpty(Lines.Split(out, '\n'))
  }

  /** `do_diff` under `catch (:nodiff)`, as a decision chain. */
  function DoDiff(cfg: DiffConfig, oldContent: Content, newContent: Content, tool: ShellOut): (r: Caught)
  {
    if cfg.diffDisabled then Thrown(DisabledByConfig)
    else if |oldContent| > cfg.filesizeThreshold || |newContent| > cfg.filesizeThreshold
    then Thrown(SizesExceed(cfg.filesizeThreshold))
    else if IsBinary(oldContent, cfg.filesizeThreshold) then Thrown(CurrentIsBinary)
    else if IsBinary(newContent, cfg.filesizeThreshold) then Thrown(NewIsBinary)
    else
      match tool
      case Raised(m) => Thrown(ToolRaised(m))
      case Completed(out, err) =>
        if |out| > 0 then
          if |out| > cfg.outputThreshold then Thrown(LongDiff(cfg.outputThreshold))
          else
            var lines := SplitLines(out);
            // @diff.delete(marker) returns the removed marker, or nil
            Returned(if NoNewlineMarker in lines then Some(NoNewlineMarker) else None, Without(lines, NoNewlineMarker))
        else if |err| > 0 then Thrown(ToolStderr(err))
        else Thrown(NoDiff)
  }

  /**
   * The EISDIR that `is_binary?` raises when it opens a directory. It passes
   * through `catch (:nodiff)`. The old file is opened only past the config and
   * size checks, and the new one only when the old one is text.
   */
  function ReadError(cfg: DiffConfig, oldFile: Path, oldEntry: Entry, newFile: Path, newEntry: Entry): (r: Option<DiffError>)
  {
    if cfg.diffDisabled then None
    else if |oldEntry.content| > cfg.filesizeThreshold || |newEntry.content| > cfg.filesizeThreshold then None
    else if oldEntry.isDirectory then Some(ReadFailed(IsADirectory(oldFile)))
    else if IsBinary(oldEntry.content, cfg.filesizeThreshold) then None
    else if newEntry.isDirectory then Some(ReadFailed(IsADirectory(newFile)))
    else None
  }

  /** `Diff.new(old, new).to_a` for two files that exist: `[@error]` when it is set, else the stored lines. */
  function Report(cfg: DiffConfig, oldContent: Content, newContent: Content, tool: ShellOut): (r: seq<string>)
  {
    match DoDiff(cfg, oldContent, newContent, tool)
    case Thrown(reason) => [Message(reason)]
    case Returned(deleted, lines) => if deleted.Some? then [deleted.value] else lines
  }

  class Diff {
    var error: Option<string>        // @error
    var diff: Option<seq<string>>    // @diff

    constructor ()
      ensures error == None && diff == None
    {
      error := None;
      diff := None;
    }

    /** `diff(old_file, new_file)`: both files must exist; then @error takes whatever the catch gives back. */
    method DiffFiles(files: Files, oldFile: Path, newFile: Path, cfg: DiffConfig, tool: ShellOut) returns (r: Outcome<DiffError>)
      modifies this
      ensures oldFile !in files ==> r == Fail(OldFileMissing(oldFile)) && error == old(error) && diff == old(diff)
      ensures oldFile in files && newFile !in files ==> r == Fail(NewFileMissing(newFile)) && error == old(error) && diff == old(diff)
      ensures oldFile in files && newFile in files && ReadError(cfg, oldFile, files[oldFile], newFile, files[newFile]).Some? ==>
        r == Fail(ReadError(cfg, oldFile, files[oldFile], newFile, files[newFile]).value) && error == old(error) && diff == old(diff)
      ensures oldFile in files && newFile in files && ReadError(cfg, oldFile, files[oldFile], newFile, files[newFile]).None? ==> (
        && r == Pass
        && match DoDiff(cfg, files[oldFile].content, files[newFile].content, tool)
           case Thrown(reason) => error == Some(Message(reason)) && diff == old(diff)
           case Returned(deleted, lines) => error == deleted && diff == Some(lines))
    {
      if oldFile !in files {
        return Fail(OldFileMissing(oldFile));
      }
      if newFile !in files {
        return Fail(NewFileMissing(newFile));
      }
      var raised := ReadError(cfg, oldFile, files[oldFile], newFile, files[newFile]);
      if raised.Some? {
        return Fail(raised.value);
      }
      var caught := DoDiff(cfg, files[oldFile].content, files[newFile].content, tool);
      match caught {
        case Thrown(reason) =>
          error := Some(Message(reason));
        case Returned(deleted, lines) =>
          diff := Some(lines);
          error := deleted;
      }
      r := Pass;
    }

    /** `to_a` */
    function ToA(): (r: Option<seq<string>>)
      reads this
    {
      if error.Some? then Some([error.value]) else diff
    }
  }

  /** `Chef::Util::Diff.new(old_file, new_file).to_a`: a missing input or a directory that `is_binary?` opens raises, otherwise the report. */
  method DiffToA(files: Files, oldFile: Path, newFile: Path, cfg: DiffConfig, tool: ShellOut) returns (r: Result<seq<string>, DiffError>)
    ensures oldFile !in files ==> r == Failure(OldFileMissing(oldFile))
    ensures oldFile in files && newFile !in files ==> r == Failure(NewFileMissing(newFile))
    ensures oldFile in files && newFile in files && ReadError(cfg, oldFile, files[oldFile], newFile, files[newFile]).Some? ==>
      r == Failure(ReadError(cfg, oldFile, files[oldFile], newFile, files[newFile]).value)
    ensures oldFile in files && newFile in files && ReadError(cfg, oldFile, files[oldFile], newFile, files[newFile]).None? ==>
      r == Success(Report(cfg, files[oldFile].content, files[newFile].content, tool))
  {
    var d := new Diff();
    var outcome := d.DiffFiles(files, oldFile, newFile, cfg, tool);
    if outcome.Fail? {
      return Failure(outcome.error);
    }
    var lines := d.ToA();
    r := Success(lines.value);
  }

  // ---------------------------------------------------------------------------
  // The policy, step by step

  /** Disabled by config comes before every other check. */
  lemma DisabledComesFirst(cfg: DiffConfig, oldContent: Content, newContent: Content, tool: ShellOut)
    requires cfg.diffDisabled
    ensures Report(cfg, oldContent, newContent, tool) == ["(diff output suppressed by config)"]
  {
  }

  /** When diffing is enabled, the size message is given exactly when either file is strictly larger than the threshold. */
  lemma SizeSuppressionIff(cfg: DiffConfig, oldContent: Content, newContent: Content, tool: ShellOut)
    requires !cfg.diffDisabled
    ensures DoDiff(cfg, oldContent, newContent, tool) == Thrown(SizesExceed(cfg.filesizeThreshold))
            <==> |oldContent| > cfg.filesizeThreshold || |newContent| > cfg.filesizeThreshold
  {
  }

  /** Past the size check, the old file is checked for binary content before the new one. */
  lemma BinaryCheckOrder(cfg: DiffConfig, oldContent: Content, newContent: Content, tool: ShellOut)
    requires !cfg.diffDisabled
    requires |oldContent| <= cfg.filesizeThreshold && |newContent| <= cfg.filesizeThreshold
    ensures IsBinary(oldContent, cfg.filesizeThreshold) ==> DoDiff(cfg, oldContent, newContent, tool) == Thrown(CurrentIsBinary)
    ensures !IsBinary(oldContent, cfg.filesizeThreshold) && IsBinary(newContent, cfg.filesizeThreshold)
            ==> DoDiff(cfg, oldContent, newContent, tool) == Thrown(NewIsBinary)
  {
  }

  /** The diff tool is consulted only when neither config, size nor binary content has suppressed the diff. */
  lemma ToolOnlyAfterChecks(cfg: DiffConfig, oldContent: Content, newContent: Content, tool1: ShellOut, tool2: ShellOut)
    requires cfg.diffDisabled
             || |oldContent| > cfg.filesizeThreshold || |newContent| > cfg.filesizeThreshold
             || IsBinary(oldContent, cfg.filesizeThreshold) || IsBinary(newContent, cfg.filesizeThreshold)
    ensures DoDiff(cfg, oldContent, newContent, tool1) == DoDiff(cfg, oldContent, newContent, tool2)
  {
  }

  /** The checks that run the tool: both files small enough and text. */
  predicate ReachesTool(cfg: DiffConfig, oldContent: Content, newContent: Content)
  {
    && !cfg.diffDisabled
    && |oldContent| <= cfg.filesizeThreshold && |newContent| <= cfg.filesizeThreshold
    && !IsBinary(oldContent, cfg.filesizeThreshold) && !IsBinary(newContent, cfg.filesizeThreshold)
  }

  /** With the tool reached: non-empty output longer than the threshold is suppressed, and only then. */
  lemma LongDiffIff(cfg: DiffConfig, oldContent: Content, newContent: Content, out: string, err: string)
    requires ReachesTool(cfg, oldContent, newContent)
    ensures DoDiff(cfg, oldContent, newContent, Completed(out, err)) == Thrown(LongDiff(cfg.outputThreshold))
            <==> |out| > cfg.outputThreshold
  {
  }

  /** Empty output: stderr, if any, is reported as the error; otherwise "(no diff)". */
  lemma EmptyOutputReports(cfg: DiffConfig, oldContent: Content, newContent: Content, err: string)
    requires ReachesTool(cfg, oldContent, newContent)
    ensures Report(cfg, oldContent, newContent, Completed("", err))
            == if |err| > 0 then ["Could not determine diff. Error: " + err] else ["(no diff)"]
  {
  }

  /** Output within the threshold and without the no-newline marker is reported line by line, as split on "\n". */
  lemma DiffLinesReported(cfg: DiffConfig, oldContent: Content, newContent: Content, out: string, err: string)
    requires ReachesTool(cfg, oldContent, newContent)
    requires 0 < |out| <= cfg.outputThreshold && NoNewlineMarker !in SplitLines(out)
    ensures Report(cfg, oldContent, newContent, Completed(out, err)) == SplitLines(out)
  {
  }

  /**
   * The success-path quirk: when the output contains the no-newline marker,
   * `Array#delete` returns the marker, `catch` stores it in @error, and `to_a`
   * reports that one line instead of the diff.
   */
  lemma MarkerReplacesDiff(cfg: DiffConfig, oldContent: Content, newContent: Content, out: string, err: string)
    requires ReachesTool(cfg, oldContent, newContent)
    requires 0 < |out| <= cfg.outputThreshold && NoNewlineMarker in SplitLines(out)
    ensures Report(cfg, oldContent, newContent, Completed(out, err)) == [NoNewlineMarker]
  {
  }

  /**
   * Only a directory escapes the catch, and only once it is opened: with
   * diffing enabled and both sizes within the threshold, an old directory
   * always raises, and a new directory raises unless the old file is binary.
   */
  lemma DirectoryRaisesOnlyWhenOpened(cfg: DiffConfig, oldFile: Path, oldEntry: Entry, newFile: Path, newEntry: Entry)
    ensures ReadError(cfg, oldFile, oldEntry, newFile, newEntry).Some? ==>
      && !cfg.diffDisabled && (oldEntry.isDirectory || newEntry.isDirectory)
      && |oldEntry.content| <= cfg.filesizeThreshold && |newEntry.content| <= cfg.filesizeThreshold
    ensures !cfg.diffDisabled && |oldEntry.content| <= cfg.filesizeThreshold && |newEntry.content| <= cfg.filesizeThreshold ==>
      && (oldEntry.isDirectory ==> ReadError(cfg, oldFile, oldEntry, newFile, newEntry) == Some(ReadFailed(IsADirectory(oldFile))))
      && (!oldEntry.isDirectory && newEntry.isDirectory ==>
            (ReadError(cfg, oldFile, oldEntry, newFile, newEntry).Some? <==> !IsBinary(oldEntry.content, cfg.filesizeThreshold)))
  {
  }

  /**
   * The lines stored in @diff never include the marker, and they are the
   * output's lines otherwise, with multiplicity and in order: cutting the
   * output's lines anywhere, the stored lines are what remains of the part
   * before the cut followed by what remains of the part after it.
   */
  lemma StoredLinesDropMarker(cfg: DiffConfig, oldContent: Content, newContent: Content, out: string, err: string)
    requires DoDiff(cfg, oldContent, newContent, Completed(out, err)).Returned?
    ensures var lines := DoDiff(cfg, oldContent, newContent, Completed(out, err)).lines;
      && NoNewlineMarker !in lines
      && multiset(lines) == multiset(SplitLines(out))[NoNewlineMarker := 0]
      && forall k :: 0 <= k <= |SplitLines(out)| ==>
           lines == Without(SplitLines(out)[..k], NoNewlineMarker) + Without(SplitLines(out)[k..], NoNewlineMarker)
  {
    var lines, all := DoDiff(cfg, oldContent, newContent, Completed(out, err)).lines, SplitLines(out);
    ReturnedLines(cfg, oldContent, newContent, out, err);
    assert lines == Without(all, NoNewlineMarker);
    WithoutAnyCut(all, NoNewlineMarker);
  }

  /** A returned diff's lines are the output's lines with the marker deleted. */
  lemma ReturnedLines(cfg: DiffConfig, oldContent: Content, newContent: Content, out: string, err: string)
    requires DoDiff(cfg, oldContent, newContent, Completed(out, err)).Returned?
    ensures DoDiff(cfg, oldContent, newContent, Completed(out, err)).lines == Without(SplitLines(out), NoNewlineMarker)
  {
  }
}
