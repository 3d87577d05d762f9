/**
 * The parts of pathlib the pipeline relies on, on `/`-separated strings: `dir / name`,
 * the final component (`name`), its `suffix` and `stem`, and `with_suffix`.
 */
module Paths {
  import opened Wrappers
  import opened Text

  /** A name that starts at the root. */
  predicate Absolute(name: string) {
    |name| > 0 && name[0] == '/'
  }

  /** `Path(dir) / name`, rendered with `str`: an absolute name replaces the directory. */
  function PathJoin(dir: string, name: string): string {
    if Absolute(name) then name else dir + "/" + name
  }

  /** `Path(p).name`: what follows the last `/`. */
  function Name(p: string): string {
    LastPiece(p, '/')
  }

  /** Everything before the name, the last `/` included. */
  function Dir(p: string): string {
    LastPieceSuffix(p, '/');
    p[..|p| - |Name(p)|]
  }

  /** A name appended to a directory part (empty or ending in `/`) is the name of the result. */
  lemma NameAfterDir(d: string, x: string)
    requires '/' !in x && (|d| == 0 || d[|d| - 1] == '/')
    ensures Name(d + x) == x && Dir(d + x) == d
  {
    var r := d + x;
    assert r[|d|..] == x;
    LastPieceUnique(r, '/', |d|);
    assert r[..|r| - |x|] == d;
  }

  /** The directory part is empty or ends in `/`, and the path is its directory part followed by its name. */
  lemma DirParts(p: string)
    ensures |Dir(p)| == 0 || Dir(p)[|Dir(p)| - 1] == '/'
    ensures p == Dir(p) + Name(p) && '/' !in Name(p)
  {
    LastPieceSuffix(p, '/');
  }

  /** The name of `dir / name` is `name`, and its directory part is `dir/`. */
  lemma PathJoinParts(dir: string, name: string)
    requires '/' !in name
    ensures Name(PathJoin(dir, name)) == name
    ensures Dir(PathJoin(dir, name)) == dir + "/"
  {
    assert PathJoin(dir, name) == (dir + "/") + name;
    NameAfterDir(dir + "/", name);
  }

  /** An absolute name is the joined path, whatever the directory. */
  lemma PathJoinAbsolute(dir: string, name: string)
    requires Absolute(name)
    ensures PathJoin(dir, name) == name && Name(PathJoin(dir, name)) == Name(name)
  {
  }

  /** Where the suffix of a name starts: its last `.`, unless that is the first or the last character. */
  function SuffixStart(name: string): (r: Option<nat>)
    ensures r.Some? ==> 0 < r.value < |name| - 1 && name[r.value] == '.'
  {
    match LastIndex(name, '.', |name|)
    case None => None
    case Some(i) => if 0 < i < |name| - 1 then Some(i) else None
  }

  /** `PurePath.suffix` of a name. */
  function Suffix(name: string): string {
    match SuffixStart(name)
    case None => ""
    case Some(i) => name[i..]
  }

  /** `PurePath.stem` of a name. */
  function Stem(name: string): string {
    match SuffixStart(name)
    case None => name
    case Some(i) => name[..i]
  }

  /** A suffix the model passes to `with_suffix`: a dot, at least one more character, no other dot or `/`. */
  predicate PlainSuffix(suf: string) {
    |suf| >= 2 && suf[0] == '.' && '.' !in suf[1..] && '/' !in suf
  }

  /** `with_suffix(suf)`: the stem of the name followed by `suf`; a path with an empty name is refused. */
  function WithSuffix(p: string, suf: string): Result<string>
    requires PlainSuffix(suf)
  {
    if Name(p) == "" then Err("has an empty name")
    else Ok(Dir(p) + Stem(Name(p)) + suf)
  }

  /** A non-empty name has a non-empty stem without `/`. */
  lemma StemOfName(p: string)
    requires Name(p) != ""
    ensures Stem(Name(p)) != "" && '/' !in Stem(Name(p))
  {
    LastPieceSuffix(p, '/');
  }

  /** `stem + suf` has the suffix `suf` and the stem `stem`. */
  lemma SuffixOfPlain(stem: string, suf: string)
    requires stem != "" && PlainSuffix(suf)
    ensures Suffix(stem + suf) == suf && Stem(stem + suf) == stem
  {
    var n := stem + suf;
    assert n[|stem|] == '.';
    forall k | |stem| < k < |n|
      ensures n[k] != '.'
    {
      assert n[k] == suf[1..][k - |stem| - 1];
    }
    assert LastIndex(n, '.', |n|) == Some(|stem|);
    assert n[|stem|..] == suf && n[..|stem|] == stem;
  }

  /**
   * `with_suffix` keeps the directory and the stem and gives the name the suffix `suf`;
   * it fails exactly on an empty name.
   */
  lemma WithSuffixSpec(p: string, suf: string)
    requires PlainSuffix(suf)
    ensures WithSuffix(p, suf).Err? <==> Name(p) == ""
    ensures WithSuffix(p, suf).Ok? ==>
      Dir(WithSuffix(p, suf).value) == Dir(p)
      && Name(WithSuffix(p, suf).value) == Stem(Name(p)) + suf
      && Suffix(Name(WithSuffix(p, suf).value)) == suf
      && Stem(Name(WithSuffix(p, suf).value)) == Stem(Name(p))
  {
    if Name(p) != "" {
      StemOfName(p);
      DirParts(p);
      StemAfterDir(Dir(p), Stem(Name(p)), suf);
    }
  }

  /** A stem and a plain suffix appended to a directory part are the name, whose stem and suffix they are. */
  lemma StemAfterDir(d: string, st: string, suf: string)
    requires |d| == 0 || d[|d| - 1] == '/'
    requires st != "" && '/' !in st && PlainSuffix(suf)
    ensures Dir(d + st + suf) == d && Name(d + st + suf) == st + suf
    ensures Suffix(st + suf) == suf && Stem(st + suf) == st
  {
    NoSlashConcat(st, suf);
    NameAfterDir(d, st + suf);
    assert d + st + suf == d + (st + suf);
    SuffixOfPlain(st, suf);
  }

  lemma NoSlashConcat(a: string, b: string)
    requires '/' !in a && '/' !in b
    ensures '/' !in a + b
  {
  }
}
