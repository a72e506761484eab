/** The parts of Python's `pathlib` that both scripts rely on: the suffix and
    stem of a path's final component, `with_suffix("")`, and the order in
    which `list.sort()` arranges paths of one directory. */
module Paths {

  /** A path split into its parent directory and its final component. */
  datatype Path = Path(parent: string, name: string)

  /** `str.rfind`: the index of the last `c` in `s`, or -1 when there is none. */
  function RFind(s: string, c: char): (i: int)
    ensures -1 <= i < |s|
    ensures i >= 0 ==> s[i] == c
    ensures forall j :: i < j < |s| ==> s[j] != c
  {
    if s == [] then -1
    else if s[|s| - 1] == c then |s| - 1
    else RFind(s[..|s| - 1], c)
  }

  /** Where `PurePath.suffix` starts in `name`: at the last dot when that dot
      is neither the first nor the last character, otherwise at the end. */
  function SuffixStart(name: string): (k: nat)
    ensures k <= |name|
    ensures k < |name| ==> 0 < k < |name| - 1 && name[k] == '.'
  {
    var i := RFind(name, '.');
    if 0 < i < |name| - 1 then i else |name|
  }

  /** `PurePath.suffix` of a final component. */
  function Suffix(name: string): (r: string)
    ensures r == [] || (|r| >= 2 && r[0] == '.' && '.' !in r[1..])
    ensures r != [] ==> |r| < |name|
  {
    name[SuffixStart(name)..]
  }

  /** `PurePath.stem` of a final component. */
  function Stem(name: string): (r: string)
    ensures name == r + Suffix(name)
    ensures Suffix(name) != [] ==> r != []
  {
    name[..SuffixStart(name)]
  }

  /** `path.with_suffix("")`; pathlib refuses a path whose name is empty. */
  function WithoutSuffix(p: Path): (r: Path)
    requires p.name != []
    ensures r.parent == p.parent
    ensures p.name == r.name + Suffix(p.name)
  {
    Path(p.parent, Stem(p.name))
  }

  /** A name made of a non-empty `base`, a dot and a dot-free non-empty
      extension has exactly that extension as its suffix and `base` as its stem. */
  lemma DottedName(base: string, ext: string)
    requires base != [] && ext != [] && '.' !in ext
    ensures Suffix(base + "." + ext) == "." + ext
    ensures Stem(base + "." + ext) == base
  {
    var name := base + "." + ext;
    assert name[|base|] == '.';
    assert forall j :: |base| < j < |name| ==> name[j] == ext[j - |base| - 1];
    var i := RFind(name, '.');
    assert i == |base|;
    assert name[|base|..] == "." + ext;
  }

  /** Python's `str` ordering: code point by code point, a proper prefix first. */
  predicate NameLe(a: string, b: string)
  {
    a == [] || (b != [] && (a[0] < b[0] || (a[0] == b[0] && NameLe(a[1..], b[1..]))))
  }

  lemma {:induction false} NameLeTotal(a: string, b: string)
    ensures NameLe(a, b) || NameLe(b, a)
  {
    if a != [] && b != [] && a[0] == b[0] {
      NameLeTotal(a[1..], b[1..]);
    }
  }

  /** Neighbouring elements are in non-decreasing order of their names. */
  predicate SortedBy<T>(s: seq<T>, name: T -> string)
  {
    forall i :: 0 <= i < |s| - 1 ==> NameLe(name(s[i]), name(s[i + 1]))
  }

  function Insert<T>(x: T, s: seq<T>, name: T -> string): (r: seq<T>)
    requires SortedBy(s, name)
    ensures SortedBy(r, name)
    ensures multiset(r) == multiset(s) + multiset{x}
    ensures |r| == |s| + 1 && (r[0] == x || (s != [] && r[0] == s[0]))
  {
    if s == [] then [x]
    else if NameLe(name(x), name(s[0])) then [x] + s
    else
      NameLeTotal(name(x), name(s[0]));
      var rest := Insert(x, s[1..], name);
      assert s == [s[0]] + s[1..];
      [s[0]] + rest
  }

  /** `list.sort()` on paths of one directory: the result is ordered by name
      and holds exactly the elements of the input. */
  function SortByName<T>(s: seq<T>, name: T -> string): (r: seq<T>)
    ensures SortedBy(r, name)
    ensures multiset(r) == multiset(s)
    ensures |r| == |s|
  {
    if s == [] then []
    else
      assert s == [s[0]] + s[1..];
      Insert(s[0], SortByName(s[1..], name), name)
  }
}
