/**
  The non-interactive part of the file picker: listing the files of the
  import directory that have one of the wanted extensions, sorted by
  lower-cased name; the two ways `select_files` comes back with nothing; and
  the unit `format_size` chooses for a byte count.

  A directory is given as what `exists()` and `iterdir()` report: either
  missing, or its entries in the order the file system yields them, each
  with its `is_file()` flag.
*/
module FileSelector {
  import opened Wrappers
  import opened Text
  import opened Paths
  import opened Sequences

  datatype Entry = Entry(path: FilePath, isFile: bool)

  datatype Directory = Missing | Listing(entries: seq<Entry>)

  /** The test inside the loop: a file whose lower-cased suffix is wanted (every file when there is no list). */
  predicate Keep(e: Entry, extensions: Option<seq<string>>) {
    e.isFile && (extensions.None? || Lower(Suffix(e.path.name)) in extensions.value)
  }

  /** The paths the loop appends, in iteration order. */
  function Kept(entries: seq<Entry>, extensions: Option<seq<string>>): seq<FilePath>
    decreases |entries|
  {
    if entries == [] then []
    else
      var last := entries[|entries| - 1];
      Kept(entries[..|entries| - 1], extensions) + (if Keep(last, extensions) then [last.path] else [])
  }

  /** A path is kept exactly when some entry with that path passes the test. */
  lemma {:induction false} KeptMembers(entries: seq<Entry>, extensions: Option<seq<string>>)
    ensures forall p :: p in Kept(entries, extensions) <==>
                          exists i :: 0 <= i < |entries| && entries[i].path == p && Keep(entries[i], extensions)
    decreases |entries|
  {
    if entries != [] {
      var front := entries[..|entries| - 1];
      KeptMembers(front, extensions);
      forall p | p in Kept(entries, extensions)
        ensures exists i :: 0 <= i < |entries| && entries[i].path == p && Keep(entries[i], extensions)
      {
        if p in Kept(front, extensions) {
          var i :| 0 <= i < |front| && front[i].path == p && Keep(front[i], extensions);
          assert entries[i] == front[i];
        } else {
          assert entries[|entries| - 1].path == p;
        }
      }
      forall p, i | 0 <= i < |entries| && entries[i].path == p && Keep(entries[i], extensions)
        ensures p in Kept(entries, extensions)
      {
        if i < |front| {
          assert front[i] == entries[i];
        }
      }
    }
  }

  // sorted(files, key=lambda x: x.name.lower())

  function Key(p: FilePath): string {
    Lower(p.name)
  }

  predicate SortedByName(ps: seq<FilePath>) {
    forall i, j :: 0 <= i < j < |ps| ==> LexLessEq(Key(ps[i]), Key(ps[j]))
  }

  /** Place p before the first path whose key is greater, after any with an equal key. */
  function Insert(p: FilePath, ps: seq<FilePath>): seq<FilePath>
    decreases |ps|
  {
    if ps == [] then [p]
    else if LexLess(Key(p), Key(ps[0])) then [p] + ps
    else [ps[0]] + Insert(p, ps[1..])
  }

  /** Python's stable sort by the lower-cased name, as an insertion sort (stability is SortByNameStable). */
  function SortByName(ps: seq<FilePath>): seq<FilePath>
    decreases |ps|
  {
    if ps == [] then [] else Insert(ps[|ps| - 1], SortByName(ps[..|ps| - 1]))
  }

  lemma {:induction false} InsertPermutes(p: FilePath, ps: seq<FilePath>)
    ensures multiset(Insert(p, ps)) == multiset(ps) + multiset{p}
    decreases |ps|
  {
    if ps != [] && !LexLess(Key(p), Key(ps[0])) {
      InsertPermutes(p, ps[1..]);
      assert ps == [ps[0]] + ps[1..];
    }
  }

  /** Inserting keeps a lower bound that p and every path of ps respect. */
  lemma {:induction false} InsertLowerBound(p: FilePath, ps: seq<FilePath>, bound: string)
    requires LexLessEq(bound, Key(p))
    requires forall k :: 0 <= k < |ps| ==> LexLessEq(bound, Key(ps[k]))
    ensures forall k :: 0 <= k < |Insert(p, ps)| ==> LexLessEq(bound, Key(Insert(p, ps)[k]))
    decreases |ps|
  {
    if ps != [] && !LexLess(Key(p), Key(ps[0])) {
      InsertLowerBound(p, ps[1..], bound);
      assert forall k :: 0 < k < |Insert(p, ps)| ==> Insert(p, ps)[k] == Insert(p, ps[1..])[k - 1];
    }
  }

  lemma {:induction false} InsertSorted(p: FilePath, ps: seq<FilePath>)
    requires SortedByName(ps)
    ensures SortedByName(Insert(p, ps))
    decreases |ps|
  {
    if ps == [] {
    } else if LexLess(Key(p), Key(ps[0])) {
      forall j | 0 <= j < |ps|
        ensures LexLessEq(Key(p), Key(ps[j]))
      {
        if j > 0 && Key(ps[0]) != Key(ps[j]) {
          LexLessTransitive(Key(p), Key(ps[0]), Key(ps[j]));
        }
      }
      var r := [p] + ps;
      assert forall j :: 0 < j < |r| ==> r[j] == ps[j - 1];
    } else {
      var t := ps[1..];
      InsertSorted(p, t);
      LexLessTotal(Key(p), Key(ps[0]));
      InsertLowerBound(p, t, Key(ps[0]));
      var it := Insert(p, t);
      var r := [ps[0]] + it;
      assert forall j :: 0 < j < |r| ==> r[j] == it[j - 1];
    }
  }

  lemma {:induction false} SortByNameSorted(ps: seq<FilePath>)
    ensures SortedByName(SortByName(ps))
    decreases |ps|
  {
    if ps != [] {
      var front := ps[..|ps| - 1];
      SortByNameSorted(front);
      InsertSorted(ps[|ps| - 1], SortByName(front));
    }
  }

  lemma {:induction false} SortByNamePermutes(ps: seq<FilePath>)
    ensures multiset(SortByName(ps)) == multiset(ps)
    decreases |ps|
  {
    if ps != [] {
      var front := ps[..|ps| - 1];
      var last := ps[|ps| - 1];
      SortByNamePermutes(front);
      InsertPermutes(last, SortByName(front));
      MultisetOfSnoc(ps);
    }
  }

  /** The sorted list is in lower-cased name order and holds exactly the given paths, each as often. */
  lemma SortByNameCorrect(ps: seq<FilePath>)
    ensures SortedByName(SortByName(ps))
    ensures multiset(SortByName(ps)) == multiset(ps)
  {
    SortByNameSorted(ps);
    SortByNamePermutes(ps);
  }

  /** The paths of ps whose lower-cased name is k, in the order of ps. */
  function WithKey(ps: seq<FilePath>, k: string): seq<FilePath>
    decreases |ps|
  {
    if ps == [] then [] else (if Key(ps[0]) == k then [ps[0]] else []) + WithKey(ps[1..], k)
  }

  lemma {:induction false} NoneWithKey(ps: seq<FilePath>, k: string)
    requires forall j :: 0 <= j < |ps| ==> Key(ps[j]) != k
    ensures WithKey(ps, k) == []
    decreases |ps|
  {
    if ps != [] {
      NoneWithKey(ps[1..], k);
    }
  }

  lemma {:induction false} WithKeySnoc(ps: seq<FilePath>, x: FilePath, k: string)
    ensures WithKey(ps + [x], k) == WithKey(ps, k) + (if Key(x) == k then [x] else [])
    decreases |ps|
  {
    if ps == [] {
      assert ps + [x] == [x];
    } else {
      assert (ps + [x])[1..] == ps[1..] + [x];
      WithKeySnoc(ps[1..], x, k);
    }
  }

  /** Inserting into a sorted list puts p after every path with the same key. */
  lemma {:induction false} InsertWithKey(p: FilePath, ps: seq<FilePath>, k: string)
    requires SortedByName(ps)
    ensures WithKey(Insert(p, ps), k) == WithKey(ps, k) + (if Key(p) == k then [p] else [])
    decreases |ps|
  {
    if ps == [] {
    } else if LexLess(Key(p), Key(ps[0])) {
      if Key(p) == k {
        forall j | 0 <= j < |ps|
          ensures Key(ps[j]) != k
        {
          if j > 0 && Key(ps[0]) != Key(ps[j]) {
            LexLessTransitive(Key(p), Key(ps[0]), Key(ps[j]));
          }
          LexLessIrreflexive(Key(p));
        }
        NoneWithKey(ps, k);
      }
      assert ([p] + ps)[1..] == ps;
    } else {
      var t := ps[1..];
      assert SortedByName(t) by {
        forall i, j | 0 <= i < j < |t|
          ensures LexLessEq(Key(t[i]), Key(t[j]))
        {
          assert t[i] == ps[i + 1] && t[j] == ps[j + 1];
        }
      }
      InsertWithKey(p, t, k);
      assert ([ps[0]] + Insert(p, t))[1..] == Insert(p, t);
    }
  }

  /** The sort is stable: paths with the same lower-cased name come out in the order they went in. */
  lemma {:induction false} SortByNameStable(ps: seq<FilePath>, k: string)
    ensures WithKey(SortByName(ps), k) == WithKey(ps, k)
    decreases |ps|
  {
    if ps != [] {
      var front := ps[..|ps| - 1];
      var last := ps[|ps| - 1];
      SortByNameStable(front, k);
      SortByNameSorted(front);
      InsertWithKey(last, SortByName(front), k);
      WithKeySnoc(front, last, k);
      assert front + [last] == ps;
    }
  }

  /** What `get_files_in_directory` returns. */
  function Listed(dir: Directory, extensions: Option<seq<string>>): seq<FilePath> {
    if dir.Missing? then [] else SortByName(Kept(dir.entries, extensions))
  }

  /**
    `get_files_in_directory`: nothing for a missing directory; otherwise the
    kept entries, sorted by lower-cased name.
  */
  method GetFilesInDirectory(dir: Directory, extensions: Option<seq<string>>) returns (files: seq<FilePath>)
    ensures files == Listed(dir, extensions)
    ensures dir.Missing? ==> files == []
    ensures dir.Listing? ==> SortedByName(files) && multiset(files) == multiset(Kept(dir.entries, extensions))
  {
    if dir.Missing? {
      return [];
    }
    var entries := dir.entries;
    files := [];
    for i := 0 to |entries|
      invariant files == Kept(entries[..i], extensions)
    {
      assert entries[..i + 1][..i] == entries[..i];
      if Keep(entries[i], extensions) {
        files := files + [entries[i].path];
      }
    }
    assert entries[..|entries|] == entries;
    SortByNameCorrect(files);
    files := SortByName(files);
  }

  /**
    `select_files`: the picker (`pick`, given the listed files) is shown only
    when some file is listed, and a cancelled picker (None) selects nothing.
  */
  method SelectFiles(importDir: Directory, extensions: Option<seq<string>>,
                     pick: seq<FilePath> -> Option<seq<FilePath>>) returns (selected: seq<FilePath>)
    ensures Listed(importDir, extensions) == [] ==> selected == []
    ensures Listed(importDir, extensions) != [] && pick(Listed(importDir, extensions)).None? ==> selected == []
    ensures Listed(importDir, extensions) != [] && pick(Listed(importDir, extensions)).Some? ==>
              selected == pick(Listed(importDir, extensions)).value
  {
    var files := GetFilesInDirectory(importDir, extensions);
    if files == [] {
      return [];
    }
    var answer := pick(files);
    if answer.None? {
      return [];
    }
    selected := answer.value;
  }

  /** Every listed path comes from a file entry whose suffix passes the filter. */
  lemma ListedAreWanted(dir: Directory, extensions: Option<seq<string>>, p: FilePath)
    requires p in Listed(dir, extensions)
    ensures dir.Listing?
    ensures exists i :: 0 <= i < |dir.entries| && dir.entries[i].path == p && dir.entries[i].isFile
                        && (extensions.None? || Lower(Suffix(p.name)) in extensions.value)
  {
    var kept := Kept(dir.entries, extensions);
    SortByNameCorrect(kept);
    assert p in multiset(SortByName(kept));
    assert p in kept;
    KeptMembers(dir.entries, extensions);
    var i :| 0 <= i < |dir.entries| && dir.entries[i].path == p && Keep(dir.entries[i], extensions);
  }

  // format_size

  const Units: seq<string> := ["B", "KB", "MB", "GB", "TB"]

  function Pow1024(k: nat): (r: nat)
    ensures r >= 1
  {
    if k == 0 then 1 else 1024 * Pow1024(k - 1)
  }

  /** The unit `format_size` settles on: B below 1024, KB below 1024², MB below 1024³, GB below 1024⁴, TB beyond. */
  function UnitIndex(n: int): (k: nat)
    ensures k <= 4
    ensures k < 4 ==> n < Pow1024(k + 1)
    ensures k > 0 ==> n >= Pow1024(k)
  {
    if n < Pow1024(1) then 0
    else if n < Pow1024(2) then 1
    else if n < Pow1024(3) then 2
    else if n < Pow1024(4) then 3
    else 4
  }

  /** A count at least every power up to the k-th and below the next one has unit k. */
  lemma UnitIndexIs(n: int, k: nat)
    requires k <= 4 && (forall j :: 0 < j <= k ==> n >= Pow1024(j))
    requires k < 4 ==> n < Pow1024(k + 1)
    ensures UnitIndex(n) == k
  {
  }

  /** Comparing the scaled number with 1024 compares the byte count with the next power. */
  lemma ScaleCompare(size: real, p: nat, n: int)
    requires p >= 1 && size * p as real == n as real
    ensures size < 1024.0 <==> n < 1024 * p
  {
    var q := p as real;
    var d := size - 1024.0;
    assert n as real - (1024 * p) as real == d * q;
    if d < 0.0 {
      assert d * q < 0.0;
    } else {
      assert d * q >= 0.0;
    }
  }

  lemma ScaleDown(size: real, p: nat, n: int)
    requires size * p as real == n as real
    ensures (size / 1024.0) * (1024 * p) as real == n as real
  {
    assert (1024 * p) as real == 1024.0 * p as real;
    assert (size / 1024.0) * (1024.0 * p as real) == size * p as real;
  }

  /**
    `format_size`: the loop over B, KB, MB and GB divides by 1024 until the
    number drops below 1024, and TB takes whatever is left. The number and
    the unit are returned; the one-decimal rendering is not modelled.
  */
  method FormatSize(sizeBytes: int) returns (value: real, unit: string)
    ensures unit == Units[UnitIndex(sizeBytes)]
    ensures value * Pow1024(UnitIndex(sizeBytes)) as real == sizeBytes as real
  {
    var size := sizeBytes as real;
    var k := 0;
    ghost var scale: nat := 1;
    while k < 4
      invariant 0 <= k <= 4 && scale == Pow1024(k)
      invariant size * scale as real == sizeBytes as real
      invariant forall j :: 0 < j <= k ==> sizeBytes >= Pow1024(j)
    {
      if size < 1024.0 {
        ScaleCompare(size, scale, sizeBytes);
        UnitIndexIs(sizeBytes, k);
        return size, Units[k];
      }
      ScaleCompare(size, scale, sizeBytes);
      ScaleDown(size, scale, sizeBytes);
      size := size / 1024.0;
      scale := 1024 * scale;
      k := k + 1;
    }
    UnitIndexIs(sizeBytes, 4);
    return size, Units[4];
  }
}
