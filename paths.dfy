/**
  The part of `pathlib.Path` the executors and the file selector use: a path
  is a parent directory (as text) and a final component; `name`, `stem` and
  `suffix` follow pathlib's rule that the suffix starts at the last '.' of
  the name, provided that dot is neither the first nor the last character.
*/
module Paths {
  import opened Text

  datatype FilePath = FilePath(dir: string, name: string)

  /** `str(path)`: the directory and the name joined by one '/'. */
  function PathText(p: FilePath): (r: string)
    ensures |r| >= |p.name| && r[|r| - |p.name|..] == p.name
  {
    if p.dir == [] then p.name
    else if p.dir[|p.dir| - 1] == '/' then p.dir + p.name
    else p.dir + "/" + p.name
  }

  /** `directory / name`. */
  function Child(dir: string, name: string): (p: FilePath)
    ensures p.dir == dir && p.name == name
  {
    FilePath(dir, name)
  }

  /** Where the suffix of a name starts, or |name| when it has none. */
  function SuffixStart(name: string): (i: nat)
    ensures i <= |name|
  {
    var k := LastIndexOf(name, '.');
    if 0 < k < |name| - 1 then k else |name|
  }

  /** `path.suffix`: from the last dot on, or "" (a leading or trailing dot does not count). */
  function Suffix(name: string): string {
    name[SuffixStart(name)..]
  }

  /** `path.stem`: the name without its suffix. */
  function Stem(name: string): string {
    name[..SuffixStart(name)]
  }

  /** The stem and the suffix split the name; a suffix is empty or a dot and at least one further character, none of them a dot. */
  lemma StemSuffixSplit(name: string)
    ensures Stem(name) + Suffix(name) == name
    ensures Suffix(name) == [] || (|Suffix(name)| >= 2 && Suffix(name)[0] == '.' && '.' !in Suffix(name)[1..])
    ensures Suffix(name) != [] ==> |Stem(name)| >= 1
  {
    var k := SuffixStart(name);
    assert name[..k] + name[k..] == name;
    if k < |name| {
      assert forall j :: 0 <= j < |name[k..]| - 1 ==> name[k..][1..][j] == name[k + 1 + j];
    }
  }

  /** A non-empty stem followed by a dot and a dot-free, non-empty extension is split back apart by pathlib. */
  lemma SuffixOfDotted(stem: string, ext: string)
    requires |stem| >= 1 && |ext| >= 2 && ext[0] == '.' && '.' !in ext[1..]
    ensures Suffix(stem + ext) == ext && Stem(stem + ext) == stem
  {
    var name := stem + ext;
    var k := LastIndexOf(name, '.');
    var at := |stem|;
    assert name[at] == '.';
    forall j | at < j < |name|
      ensures name[j] != '.'
    {
      assert name[j] == ext[1..][j - at - 1];
    }
    assert k == at;
    assert name[k..] == ext && name[..k] == stem;
  }
}
