/**
  `generate_output_filename`, which both executors define identically: the
  output is `<stem>_<timestamp>_<FORMAT>_converted<ext>` inside the export
  directory, where FORMAT is the recipe extension without its leading dots,
  upper-cased. The timestamp (`%Y%m%d_%H%M%S` of the current time) is a
  parameter.
*/
module Naming {
  import opened Text
  import opened Paths

  const ConvertedTag := "_converted"

  /** The extension's format name: leading dots dropped, letters upper-cased. */
  function FormatName(extension: string): (r: string)
    ensures |r| <= |extension| && (r == [] || r[0] != '.')
    ensures forall i :: 0 <= i < |r| ==> !('a' <= r[i] <= 'z')
  {
    Upper(LStrip(extension, '.'))
  }

  function OutputName(stem: string, timestamp: string, extension: string): string {
    stem + Tail(timestamp, extension)
  }

  function OutputPath(input: FilePath, extension: string, exportDir: string, timestamp: string): FilePath {
    Child(exportDir, OutputName(Stem(input.name), timestamp, extension))
  }

  /** The part of the name that follows the stem. */
  function Tail(timestamp: string, extension: string): string {
    "_" + timestamp + "_" + FormatName(extension) + ConvertedTag + extension
  }

  /**
    The name starts with the stem and an underscore, then the timestamp,
    and ends with an underscore, the format name, the tag and the recipe
    extension. (OutputPath puts it in the export directory: see Child.)
  */
  lemma OutputNameShape(stem: string, timestamp: string, extension: string)
    ensures var name := OutputName(stem, timestamp, extension);
            var tail := "_" + FormatName(extension) + ConvertedTag + extension;
            && StartsWith(name, stem + "_" + timestamp)
            && |name| == |stem| + 1 + |timestamp| + |tail|
            && name[|stem| + 1 + |timestamp|..] == tail
            && name[|name| - |extension|..] == extension
  {
    NameParts(stem, timestamp, FormatName(extension), extension);
  }

  lemma NameParts(stem: string, timestamp: string, format: string, extension: string)
    ensures var name := stem + ("_" + timestamp + "_" + format + ConvertedTag + extension);
            var tail := "_" + format + ConvertedTag + extension;
            && StartsWith(name, stem + "_" + timestamp)
            && |name| == |stem| + 1 + |timestamp| + |tail|
            && name[|stem| + 1 + |timestamp|..] == tail
            && name[|name| - |extension|..] == extension
  {
    var head := stem + "_" + timestamp;
    var front := "_" + format + ConvertedTag;
    var tail := front + extension;
    var name := stem + ("_" + timestamp + "_" + format + ConvertedTag + extension);
    assert name == head + tail;
    ConcatParts(head, tail);
    assert name == (head + front) + extension;
    ConcatParts(head + front, extension);
  }

  /**
    With a timestamp and an extension fixed, the output name determines the
    stem: files whose stems differ never share an output name.
  */
  lemma OutputNameInjective(stem1: string, stem2: string, timestamp: string, extension: string)
    requires OutputName(stem1, timestamp, extension) == OutputName(stem2, timestamp, extension)
    ensures stem1 == stem2
  {
    AppendCancel(stem1, stem2, Tail(timestamp, extension));
  }

  /**
    For an extension such as ".mp4" (a dot, then at least one character and
    no further dot), pathlib reads the output's suffix as that extension and
    its stem as everything before it.
  */
  lemma OutputSuffix(input: FilePath, extension: string, exportDir: string, timestamp: string)
    requires |extension| >= 2 && extension[0] == '.' && '.' !in extension[1..]
    ensures var out := OutputPath(input, extension, exportDir, timestamp);
            && Suffix(out.name) == extension
            && Stem(out.name) == Stem(input.name) + "_" + timestamp + "_" + FormatName(extension) + ConvertedTag
  {
    var stem := Stem(input.name);
    var format := FormatName(extension);
    TailRegroup(stem, timestamp, format, extension);
    SuffixOfDotted(stem + "_" + timestamp + "_" + format + ConvertedTag, extension);
  }

  lemma TailRegroup(stem: string, timestamp: string, format: string, extension: string)
    ensures stem + ("_" + timestamp + "_" + format + ConvertedTag + extension)
            == (stem + "_" + timestamp + "_" + format + ConvertedTag) + extension
  {
  }
}
