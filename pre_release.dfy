/**
 * The release script that appends a pre-release tag to the latest version:
 * it reads versions.yml line by line, rewrites the first line as
 * `rstrip(line) + pre_release + "\n"`, and writes all lines back.
 */
module PreRelease {
  import opened Optional
  import opened Text

  /** versions.yml, as the text Python decodes from it. */
  class VersionsFile {
    var text: string

    constructor (text: string)
      ensures this.text == text
    {
      this.text := text;
    }
  }

  /** How a run of `append_pre_release_to_latest_version` ends. */
  datatype Outcome =
    | Rewritten
    | IndexError  // `content[0]` on the empty list an empty file reads as

  /** The lines after the first one has been given the pre-release suffix. */
  function WithPreRelease(lines: seq<string>, preRelease: string): (r: seq<string>)
    requires lines != []
    ensures |r| == |lines| && r[1..] == lines[1..]
    ensures r[0] == RStrip(lines[0]) + preRelease + "\n"
    ensures r[0][|r[0]| - 1] == '\n' && r[0][..|r[0]| - 1] == RStrip(lines[0]) + preRelease
  {
    lines[0 := RStrip(lines[0]) + preRelease + "\n"]
  }

  /**
   * Only the first line changes: it keeps its text up to the trailing
   * whitespace (a "\r", spaces, the "\n" itself), then gets the suffix and
   * exactly one "\n". The line count stays the same.
   */
  lemma WithPreReleaseShape(lines: seq<string>, preRelease: string)
    requires lines != []
    ensures var r := WithPreRelease(lines, preRelease);
      var kept := RStrip(lines[0]);
      && |r| == |lines|
      && (forall i :: 1 <= i < |lines| ==> r[i] == lines[i])
      && kept == lines[0][..|kept|]
      && (forall i :: |kept| <= i < |lines[0]| ==> IsSpace(lines[0][i]))
      && r[0][..|kept|] == kept
      && r[0][|kept|..|r[0]| - 1] == preRelease
      && r[0][|r[0]| - 1] == '\n'
  {
  }

  /**
   * The rewrite is not idempotent: with a suffix that has no trailing
   * whitespace, running it twice appends the suffix twice.
   */
  lemma RewriteTwice(lines: seq<string>, preRelease: string)
    requires lines != []
    requires preRelease == [] || !IsSpace(preRelease[|preRelease| - 1])
    ensures WithPreRelease(WithPreRelease(lines, preRelease), preRelease)[0] ==
      RStrip(lines[0]) + preRelease + preRelease + "\n"
    ensures preRelease != [] ==>
      WithPreRelease(WithPreRelease(lines, preRelease), preRelease) != WithPreRelease(lines, preRelease)
  {
    var once := RStrip(lines[0]) + preRelease;
    RStripDropsSpaces(once, "\n");
    assert once + "\n" == RStrip(lines[0]) + preRelease + "\n";
    RStripOfClean(once);
    if preRelease != [] {
      assert |WithPreRelease(WithPreRelease(lines, preRelease), preRelease)[0]| !=
        |WithPreRelease(lines, preRelease)[0]|;
    }
  }

  /**
   * Reading the rewritten file gives back the rewritten lines: the new first
   * line ends in a single "\n" and no other line is split or merged, as long
   * as the suffix itself holds no line break.
   */
  lemma RewrittenFileReadsBack(text: string, preRelease: string)
    requires text != []
    requires forall i :: 0 <= i < |preRelease| ==> preRelease[i] != '\n' && preRelease[i] != '\r'
    ensures ReadLines(text) != []
    ensures ReadLines(Concat(WithPreRelease(ReadLines(text), preRelease))) == WithPreRelease(ReadLines(text), preRelease)
  {
    var lines := ReadLines(text);
    var r := WithPreRelease(lines, preRelease);
    var kept := RStrip(lines[0]);
    assert forall j :: 0 <= j < |kept| ==> kept[j] == lines[0][j];
    assert |kept| < |lines[0]| || |lines| == 1;
    assert forall j :: 0 <= j < |r[0]| ==> r[0][j] != '\r' by {
      forall j | 0 <= j < |r[0]| ensures r[0][j] != '\r' {
        if j < |kept| { assert r[0][j] == lines[0][j]; }
      }
    }
    assert WellFormedLines(r) by {
      forall j | 0 <= j < |r[0]| - 1 ensures r[0][j] != '\n' {
        if j < |kept| { assert r[0][j] == lines[0][j]; }
      }
    }
    ConcatChars(r, '\r');
    TranslateWithoutCarriageReturn(Concat(r));
    SplitConcat(r);
  }

  /** `read_from_file`: the file's lines; never None, possibly empty. */
  method ReadFromFile(file: VersionsFile) returns (content: array<string>)
    ensures fresh(content) && content[..] == ReadLines(file.text)
  {
    var lines := ReadLines(file.text);
    content := new string[|lines|](i requires 0 <= i < |lines| => lines[i]);
  }

  /** `write_to_file`: truncates the file and writes each line in order, nothing in between. */
  method WriteToFile(file: VersionsFile, newContent: array<string>)
    modifies file
    ensures file.text == Concat(newContent[..])
  {
    file.text := "";
    for i := 0 to newContent.Length
      invariant file.text == Concat(newContent[..i])
    {
      ConcatSnoc(newContent[..i], newContent[i]);
      assert newContent[..i + 1] == newContent[..i] + [newContent[i]];
      file.text := file.text + newContent[i];
    }
    assert newContent[..newContent.Length] == newContent[..];
  }

  /**
   * `append_pre_release_to_latest_version`: an empty file fails on
   * `content[0]` and is left as it was; otherwise the file is rewritten.
   */
  method AppendPreReleaseToLatestVersion(file: VersionsFile, preRelease: string) returns (outcome: Outcome)
    modifies file
    ensures old(file.text) == [] ==> outcome == IndexError && file.text == old(file.text)
    ensures old(file.text) != [] ==>
      outcome == Rewritten && file.text == Concat(WithPreRelease(ReadLines(old(file.text)), preRelease))
  {
    var content := ReadFromFile(file);
    if content.Length == 0 {
      return IndexError;
    }
    var cleanedVersion := RStrip(content[0]);
    cleanedVersion := cleanedVersion + preRelease + "\n";
    content[0] := cleanedVersion;
    WriteToFile(file, content);
    outcome := Rewritten;
  }

  /**
   * The `__main__` block: rewrites only when `--pre-release` was given with a
   * value, possibly "" (a bare `-r` parses as None and rewrites nothing).
   */
  method RunAsScript(file: VersionsFile, preRelease: Option<string>) returns (outcome: Option<Outcome>)
    modifies file
    ensures preRelease.None? ==> outcome == None && file.text == old(file.text)
    ensures preRelease.Some? && old(file.text) != [] ==>
      outcome == Some(Rewritten) &&
      file.text == Concat(WithPreRelease(ReadLines(old(file.text)), preRelease.value))
    ensures preRelease.Some? && old(file.text) == [] ==> outcome == Some(IndexError) && file.text == old(file.text)
  {
    if preRelease.None? {
      return None;
    }
    var result := AppendPreReleaseToLatestVersion(file, preRelease.value);
    outcome := Some(result);
  }
}
