/** The configuration preprocessor (scripts/arg_parser.py, preprocess_yaml_file): copies a
    configuration document line by line into a temporary file, replacing every line that
    starts with `import_file:` by the lines of the file it names, between two banners. The
    file system is a map from file names to their lines (each line keeps its own newline,
    as Python's file iteration gives it); the output is the sequence of strings written, in
    order. */
module Preprocess {
  import opened Wrappers
  import Text

  const ImportPrefix: string := "import_file:"

  /** line.startswith('import_file:') */
  predicate IsImport(line: string) {
    |ImportPrefix| <= |line| && line[..|ImportPrefix|] == ImportPrefix
  }

  function Banner(edge: string, file: string): string {
    "#################### " + edge + " file " + file
  }

  /** What an import of `file` writes: a newline, the Begin banner, a newline, the file's
      lines, a newline, the End banner and a newline. */
  function Inclusion(file: string, lines: seq<string>): seq<string> {
    ["\n", Banner("Begin", file), "\n"] + lines + ["\n", Banner("End", file), "\n"]
  }

  /** line.split()[1]: the second word of the line; an IndexError when there is none. */
  function IncludedFile(line: string): (r: Result<string>)
    ensures r.Success? <==> |Text.Words(line)| >= 2
    ensures r.Success? ==> r.value == Text.Words(line)[1] && r.value != [] && Text.NoSpace(r.value)
  {
    var parts := Text.Words(line);
    if |parts| >= 2 then Success(parts[1]) else Failure(IndexError("list index out of range"))
  }

  /** open(file): its lines, or the error for a file that does not exist. */
  function ReadLines(files: map<string, seq<string>>, file: string): (r: Result<seq<string>>)
    ensures r.Success? <==> file in files
  {
    if file in files then Success(files[file]) else Failure(NotFound(file))
  }

  /** What one input line writes: itself, or the inclusion of the file it imports. The
      included lines are written as they are, not scanned for imports of their own. */
  function ExpandLine(line: string, files: map<string, seq<string>>): (r: Result<seq<string>>)
    ensures !IsImport(line) ==> r == Success([line])
    ensures IsImport(line) ==>
      (r.Success? <==> IncludedFile(line).Success? && IncludedFile(line).value in files)
    ensures IsImport(line) && r.Success? ==>
      r.value == Inclusion(IncludedFile(line).value, files[IncludedFile(line).value])
  {
    if IsImport(line) then
      var file :- IncludedFile(line);
      var lines :- ReadLines(files, file);
      Success(Inclusion(file, lines))
    else
      Success([line])
  }

  /** The writes of the whole transformation, or the first error it meets. */
  function Expand(lines: seq<string>, files: map<string, seq<string>>): Result<seq<string>>
  {
    if lines == [] then Success([])
    else
      var done :- Expand(lines[..|lines| - 1], files);
      var last :- ExpandLine(lines[|lines| - 1], files);
      Success(done + last)
  }

  /** The loop of preprocess_yaml_file over the input lines: each line's writes follow the
      previous line's, and an import that cannot be read ends the run with its error. */
  method PreprocessLines(lines: seq<string>, files: map<string, seq<string>>) returns (r: Result<seq<string>>)
    ensures r == Expand(lines, files)
  {
    var out: seq<string> := [];
    var i := 0;
    while i < |lines|
      invariant 0 <= i <= |lines|
      invariant Expand(lines[..i], files) == Success(out)
    {
      var line := lines[i];
      var written: seq<string>;
      if IsImport(line) {
        var parts := Text.Words(line);
        if |parts| < 2 {
          ExpandStopsAt(lines, i, files);
          return Failure(IndexError("list index out of range"));
        }
        var included := parts[1];
        if included !in files {
          ExpandStopsAt(lines, i, files);
          return Failure(NotFound(included));
        }
        written := ["\n", Banner("Begin", included), "\n"];
        var imported := files[included];
        var k := 0;
        while k < |imported|
          invariant 0 <= k <= |imported|
          invariant written == ["\n", Banner("Begin", included), "\n"] + imported[..k]
        {
          written := written + [imported[k]];
          k := k + 1;
        }
        assert imported[..k] == imported;
        written := written + ["\n", Banner("End", included), "\n"];
      } else {
        written := [line];
      }
      assert lines[..i + 1][..i] == lines[..i];
      out := out + written;
      i := i + 1;
    }
    assert lines[..i] == lines;
    r := Success(out);
  }

  /** The first line that cannot be expanded ends the whole transformation with its error. */
  lemma ExpandStopsAt(lines: seq<string>, i: nat, files: map<string, seq<string>>)
    requires i < |lines|
    requires Expand(lines[..i], files).Success? && ExpandLine(lines[i], files).Failure?
    ensures Expand(lines, files) == Failure(ExpandLine(lines[i], files).error)
  {
    var head := lines[..i + 1];
    assert head[..i] == lines[..i] && head[i] == lines[i];
    assert Expand(head, files) == Failure(ExpandLine(lines[i], files).error);
    ExpandAppend(head, lines[i + 1..], files);
    assert head + lines[i + 1..] == lines;
  }

  /** The writes of a single line are the line's expansion. */
  lemma ExpandOne(line: string, files: map<string, seq<string>>)
    ensures Expand([line], files) == ExpandLine(line, files)
  {
    assert [line][..0] == [];
    assert [line][0] == line;
    if ExpandLine(line, files).Success? {
      assert [] + ExpandLine(line, files).value == ExpandLine(line, files).value;
    }
  }

  // ---------------------------------------------------------------------------
  // What the transformation promises

  /** Writes that follow other writes: the first error stops them, otherwise they add up. */
  function Then(first: Result<seq<string>>, next: Result<seq<string>>): Result<seq<string>> {
    if first.Failure? then first else if next.Failure? then next else Success(first.value + next.value)
  }

  lemma ThenAssociative(x: Result<seq<string>>, y: Result<seq<string>>, z: Result<seq<string>>)
    ensures Then(Then(x, y), z) == Then(x, Then(y, z))
  {
    if x.Success? && y.Success? && z.Success? {
      assert (x.value + y.value) + z.value == x.value + (y.value + z.value);
    }
  }

  /** One more line: its writes follow the earlier lines' writes. */
  lemma ExpandSnoc(lines: seq<string>, x: string, files: map<string, seq<string>>)
    ensures Expand(lines + [x], files) == Then(Expand(lines, files), ExpandLine(x, files))
  {
    assert (lines + [x])[..|lines|] == lines;
    assert (lines + [x])[|lines|] == x;
  }

  /** The transformation works line by line: the writes for `a + b` are the writes for `a`
      followed by the writes for `b`; an error in `a` is the error of the whole, and
      otherwise so is an error in `b`. */
  lemma {:induction false} ExpandAppend(a: seq<string>, b: seq<string>, files: map<string, seq<string>>)
    ensures Expand(a + b, files) == Then(Expand(a, files), Expand(b, files))
    decreases |b|
  {
    if b == [] {
      assert a + b == a;
      if Expand(a, files).Success? {
        assert Expand(a, files).value + [] == Expand(a, files).value;
      }
    } else {
      var b', x := b[..|b| - 1], b[|b| - 1];
      assert a + b == (a + b') + [x];
      assert b == b' + [x];
      ExpandAppend(a, b', files);
      ExpandSnoc(a + b', x, files);
      ExpandSnoc(b', x, files);
      ThenAssociative(Expand(a, files), Expand(b', files), ExpandLine(x, files));
    }
  }

  /** A document without imports is copied unchanged and in order. */
  lemma {:induction false} ExpandWithoutImports(lines: seq<string>, files: map<string, seq<string>>)
    requires forall i :: 0 <= i < |lines| ==> !IsImport(lines[i])
    ensures Expand(lines, files) == Success(lines)
    decreases |lines|
  {
    if lines != [] {
      var init, last := lines[..|lines| - 1], lines[|lines| - 1];
      assert forall i :: 0 <= i < |init| ==> init[i] == lines[i];
      ExpandWithoutImports(init, files);
      assert !IsImport(last);
      assert ExpandLine(last, files) == Success([last]);
      assert init + [last] == lines;
    }
  }

  /** Only a line that starts with the prefix in column 0 is an import: an indented one is
      copied as it is. */
  lemma IndentedImportIsCopied(indent: string, rest: string, files: map<string, seq<string>>)
    requires indent != [] && Text.IsSpace(indent[0])
    ensures ExpandLine(indent + ImportPrefix + rest, files) == Success([indent + ImportPrefix + rest])
  {
    var line := indent + ImportPrefix + rest;
    assert line[0] == indent[0];
    assert !IsImport(line);
  }

  /** The included file is the word after the prefix: `import_file: <name>` followed by
      spaces or the line's newline names `<name>`. */
  lemma IncludedFileOfImportLine(name: string, sep: char, end: string)
    requires name != [] && Text.NoSpace(name)
    requires Text.IsSpace(sep)
    requires forall i :: 0 <= i < |end| ==> Text.IsSpace(end[i])
    ensures IncludedFile(ImportPrefix + [sep] + name + end) == Success(name)
  {
    var line := ImportPrefix + [sep] + name + end;
    assert line == ImportPrefix + [sep] + (name + end);
    Text.WordsAcrossSpace(ImportPrefix, sep, name + end);
    PrefixIsOneWord();
    AllSpaceWords(name, end);
    assert Text.Words(line) == [ImportPrefix, name];
  }

  lemma PrefixIsOneWord()
    ensures Text.Words(ImportPrefix) == [ImportPrefix]
  {
    assert Text.NoSpace(ImportPrefix);
    Text.OneWord(ImportPrefix);
  }

  /** A word followed only by spaces is that one word. */
  lemma {:induction false} AllSpaceWords(name: string, end: string)
    requires name != [] && Text.NoSpace(name)
    requires forall i :: 0 <= i < |end| ==> Text.IsSpace(end[i])
    ensures Text.Words(name + end) == [name]
    decreases |end|
  {
    if end == [] {
      assert name + end == name;
      Text.OneWord(name);
    } else {
      var init := end[..|end| - 1];
      assert name + end == name + init + [end[|end| - 1]];
      Text.WordsTrailingSpace(name + init, end[|end| - 1]);
      AllSpaceWords(name, init);
    }
  }

  /** Expansion is one level deep: a file that itself imports another is included with
      its own import lines left in place. */
  lemma ImportsAreNotNested(line: string, files: map<string, seq<string>>)
    requires IsImport(line) && IncludedFile(line).Success? && IncludedFile(line).value in files
    requires exists k :: 0 <= k < |files[IncludedFile(line).value]| && IsImport(files[IncludedFile(line).value][k])
    ensures Expand([line], files).Success?
    ensures exists k :: 0 <= k < |Expand([line], files).value| && IsImport(Expand([line], files).value[k])
  {
    var f := IncludedFile(line).value;
    var k :| 0 <= k < |files[f]| && IsImport(files[f][k]);
    ExpandOne(line, files);
    var out := Expand([line], files).value;
    assert out == Inclusion(f, files[f]);
    assert 0 <= 3 + k < |out| && out[3 + k] == files[f][k];
    assert IsImport(out[3 + k]);
  }

  // ---------------------------------------------------------------------------
  // The temporary file's name

  /** os.path.split(filename)[1]: what follows the last '/'. */
  function Basename(filename: string): (b: string)
    ensures |b| <= |filename| && b == filename[|filename| - |b|..]
    ensures '/' !in b
    ensures |b| < |filename| ==> filename[|filename| - |b| - 1] == '/'
  {
    if filename == [] || filename[|filename| - 1] == '/' then []
    else
      var b := Basename(filename[..|filename| - 1]) + [filename[|filename| - 1]];
      b
  }

  /** The suffix of the preprocessed file's name: a hyphen and the input's base name. */
  function OutfileSuffix(filename: string): (s: string)
    ensures |s| >= 1 && s[0] == '-' && '/' !in s[1..]
    ensures |s| - 1 <= |filename| && s[1..] == filename[|filename| - (|s| - 1)..]
  {
    "-" + Basename(filename)
  }

  /** A name in a directory keeps its own name as the suffix, whatever the directory. */
  lemma OutfileSuffixOfPath(dir: string, name: string)
    requires '/' !in name
    ensures OutfileSuffix(dir + "/" + name) == "-" + name
  {
    BasenameOfPath(dir, name);
  }

  lemma {:induction false} BasenameOfPath(dir: string, name: string)
    requires '/' !in name
    ensures Basename(dir + "/" + name) == name
    decreases |name|
  {
    var p := dir + "/" + name;
    if name == [] {
      assert p[|p| - 1] == '/';
    } else {
      var init := name[..|name| - 1];
      assert p[..|p| - 1] == dir + "/" + init;
      assert p[|p| - 1] == name[|name| - 1];
      BasenameOfPath(dir, init);
      assert init + [name[|name| - 1]] == name;
    }
  }
}
