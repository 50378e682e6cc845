/** POSIX paths the way `pathlib.PurePosixPath` sees them: a path is the
    sequence of its `parts`; an absolute path starts with the part "/". Also
    `str.split` with a one-character separator, which both the path parser and
    the template parser build on. */
module Paths {

  type Path = seq<string>

  /** `s.split(sep)` for a one-character `sep`: cut at every occurrence,
      keep empty pieces, always at least one piece. */
  function Split(s: string, sep: char): (pieces: seq<string>)
    ensures |pieces| >= 1
    ensures forall k :: 0 <= k < |pieces| ==> sep !in pieces[k]
  {
    if |s| == 0 then [""]
    else
      var rest := Split(s[1..], sep);
      if s[0] == sep then [""] + rest
      else [[s[0]] + rest[0]] + rest[1..]
  }

  /** `sep.join(pieces)`. */
  function JoinPieces(pieces: seq<string>, sep: char): string
    requires |pieces| >= 1
  {
    if |pieces| == 1 then pieces[0]
    else pieces[0] + [sep] + JoinPieces(pieces[1..], sep)
  }

  /** Splitting loses nothing: joining the pieces again gives back the string. */
  lemma {:induction false} SplitRoundTrip(s: string, sep: char)
    ensures JoinPieces(Split(s, sep), sep) == s
  {
    if |s| > 0 {
      var rest := Split(s[1..], sep);
      SplitRoundTrip(s[1..], sep);
      if s[0] != sep && |rest| > 1 {
        var pieces := Split(s, sep);
        assert pieces[1..] == rest[1..];
        assert JoinPieces(rest, sep) == rest[0] + [sep] + JoinPieces(rest[1..], sep);
      }
    }
  }

  /** A string without the separator is a single piece. */
  lemma {:induction false} SplitWithoutSeparator(s: string, sep: char)
    requires sep !in s
    ensures Split(s, sep) == [s]
  {
    if |s| > 0 {
      SplitWithoutSeparator(s[1..], sep);
      assert [s[0]] + s[1..] == s;
    }
  }

  /** A separator between two strings splits them apart. */
  lemma {:induction false} SplitAtSeparator(x: string, y: string, sep: char)
    ensures Split(x + [sep] + y, sep) == Split(x, sep) + Split(y, sep)
  {
    var s := x + [sep] + y;
    if |x| == 0 {
      assert s[1..] == y;
    } else {
      assert s[1..] == x[1..] + [sep] + y;
      SplitAtSeparator(x[1..], y, sep);
    }
  }

  /** The other round trip: pieces free of the separator survive join-then-split. */
  lemma {:induction false} JoinRoundTrip(pieces: seq<string>, sep: char)
    requires |pieces| >= 1
    requires forall k :: 0 <= k < |pieces| ==> sep !in pieces[k]
    ensures Split(JoinPieces(pieces, sep), sep) == pieces
  {
    if |pieces| == 1 {
      SplitWithoutSeparator(pieces[0], sep);
    } else {
      JoinRoundTrip(pieces[1..], sep);
      SplitWithoutSeparator(pieces[0], sep);
      SplitAtSeparator(pieces[0], JoinPieces(pieces[1..], sep), sep);
      assert [pieces[0]] + pieces[1..] == pieces;
    }
  }

  /** The pieces pathlib keeps as parts: empty pieces (from "//" or a
      trailing "/") and "." are dropped. */
  function KeepParts(pieces: seq<string>): (parts: seq<string>)
    ensures forall k :: 0 <= k < |parts| ==> parts[k] != "" && parts[k] != "."
  {
    if pieces == [] then []
    else (if pieces[0] == "" || pieces[0] == "." then [] else [pieces[0]]) + KeepParts(pieces[1..])
  }

  lemma {:induction false} KeepPartsConcat(a: seq<string>, b: seq<string>)
    ensures KeepParts(a + b) == KeepParts(a) + KeepParts(b)
  {
    if a != [] {
      var head := if a[0] == "" || a[0] == "." then [] else [a[0]];
      assert (a + b)[0] == a[0];
      assert (a + b)[1..] == a[1..] + b;
      KeepPartsConcat(a[1..], b);
      assert KeepParts(a + b) == head + KeepParts(a[1..] + b);
      assert KeepParts(a) == head + KeepParts(a[1..]);
    } else {
      assert a + b == b;
    }
  }

  /** The parts of a relative path string. */
  function Segments(s: string): (parts: seq<string>)
    ensures forall k :: 0 <= k < |parts| ==> parts[k] != "" && parts[k] != "."
  {
    KeepParts(Split(s, '/'))
  }

  /** A single plain file or directory name: one part of its own. */
  predicate IsPlainName(name: string) {
    name != "" && name != "." && '/' !in name
  }

  predicate IsAbsolute(name: string) {
    |name| > 0 && name[0] == '/'
  }

  /** `base / name` (also `base.joinpath(name)`): an absolute `name`
      replaces `base`, a relative one extends it. */
  function Join(base: Path, name: string): (p: Path)
    ensures IsAbsolute(name) ==> |p| > 0 && p[0] == "/"
    ensures !IsAbsolute(name) ==> base <= p
  {
    if IsAbsolute(name) then ["/"] + Segments(name) else base + Segments(name)
  }

  /** `path.parts[-1]`; an empty path has none. */
  function Basename(p: Path): string
    requires |p| > 0
  {
    p[|p| - 1]
  }

  lemma SegmentsOfPlainName(name: string)
    requires IsPlainName(name)
    ensures Segments(name) == [name]
  {
    SplitWithoutSeparator(name, '/');
    assert KeepParts([name]) == [name] + KeepParts([]);
  }

  /** A relative path ending in `dir/name` has `name` as its last part. */
  lemma SegmentsOfNested(dir: string, name: string)
    requires IsPlainName(name)
    ensures Segments(dir + "/" + name) == Segments(dir) + [name]
  {
    SplitAtSeparator(dir, name, '/');
    assert dir + "/" + name == dir + ['/'] + name;
    SplitWithoutSeparator(name, '/');
    KeepPartsConcat(Split(dir, '/'), [name]);
    assert KeepParts([name]) == [name] + KeepParts([]);
  }

  /** Joining a plain name appends exactly that one part. */
  lemma JoinPlainName(base: Path, name: string)
    requires IsPlainName(name)
    ensures Join(base, name) == base + [name]
  {
    SegmentsOfPlainName(name);
  }

  /** Whatever the directories in front of it, and whether the path is
      absolute or not, the last part of `base / (dir + "/" + name)` is `name`. */
  lemma BasenameOfNested(base: Path, dir: string, name: string)
    requires IsPlainName(name)
    ensures |Join(base, dir + "/" + name)| > 0
    ensures Basename(Join(base, dir + "/" + name)) == name
  {
    SegmentsOfNested(dir, name);
  }
}
