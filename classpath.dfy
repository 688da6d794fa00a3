/** Python's str.split and str.join for a one-character separator, and the
    split of a dotted class path into its module path and class name. */
module ClassPath {

  const Dot := '.'

  /** s.split(sep): the maximal separator-free pieces of s, empty ones included,
      so a string with k separators has k + 1 pieces. */
  function Split(s: string, sep: char): (parts: seq<string>)
    ensures |parts| >= 1
    ensures forall i :: 0 <= i < |parts| ==> sep !in parts[i]
    decreases |s|
  {
    if |s| == 0 then [""]
    else
      var rest := Split(s[1..], sep);
      if s[0] == sep then [""] + rest
      else [[s[0]] + rest[0]] + rest[1..]
  }

  /** sep.join(parts): the pieces in order with one separator between
      neighbours, and the empty string for no pieces. */
  function Join(parts: seq<string>, sep: char): (s: string)
    ensures |parts| == 0 ==> s == ""
    ensures |parts| > 0 ==> parts[0] <= s
    ensures |parts| > 1 ==> |parts[0]| < |s| && s[|parts[0]|] == sep
  {
    if |parts| == 0 then ""
    else if |parts| == 1 then parts[0]
    else parts[0] + [sep] + Join(parts[1..], sep)
  }

  /** Joining the pieces of a split gives back the string. */
  lemma {:induction false} JoinSplit(s: string, sep: char)
    ensures Join(Split(s, sep), sep) == s
    decreases |s|
  {
    if |s| > 0 {
      var rest := Split(s[1..], sep);
      JoinSplit(s[1..], sep);
      if s[0] == sep {
        assert Split(s, sep) == [""] + rest;
        assert ([""] + rest)[1..] == rest;
        assert s == [sep] + s[1..];
      } else if |rest| == 1 {
        assert Split(s, sep) == [[s[0]] + rest[0]];
        assert s == [s[0]] + s[1..];
      } else {
        var parts := Split(s, sep);
        assert parts == [[s[0]] + rest[0]] + rest[1..];
        assert parts[1..] == rest[1..];
        assert Join(rest, sep) == rest[0] + [sep] + Join(rest[1..], sep);
        assert s == [s[0]] + s[1..];
      }
    }
  }

  lemma {:induction false} SplitNoSeparator(p: string, sep: char)
    requires sep !in p
    ensures Split(p, sep) == [p]
    decreases |p|
  {
    if |p| > 0 {
      SplitNoSeparator(p[1..], sep);
      assert [p[0]] + p[1..] == p;
    }
  }

  lemma {:induction false} SplitAfterPiece(p: string, sep: char, t: string)
    requires sep !in p
    ensures Split(p + [sep] + t, sep) == [p] + Split(t, sep)
    decreases |p|
  {
    var s := p + [sep] + t;
    if |p| == 0 {
      assert s[0] == sep && s[1..] == t;
    } else {
      assert s[0] == p[0] && s[1..] == p[1..] + [sep] + t;
      SplitAfterPiece(p[1..], sep, t);
      assert [p[0]] + p[1..] == p;
    }
  }

  /** Splitting a join of separator-free pieces gives back the pieces: together
      with JoinSplit, Split and Join are inverse bijections. */
  lemma {:induction false} SplitJoin(parts: seq<string>, sep: char)
    requires |parts| >= 1
    requires forall i :: 0 <= i < |parts| ==> sep !in parts[i]
    ensures Split(Join(parts, sep), sep) == parts
    decreases |parts|
  {
    if |parts| == 1 {
      SplitNoSeparator(parts[0], sep);
    } else {
      SplitJoin(parts[1..], sep);
      SplitAfterPiece(parts[0], sep, Join(parts[1..], sep));
      assert [parts[0]] + parts[1..] == parts;
    }
  }

  lemma {:induction false} JoinSnoc(parts: seq<string>, sep: char)
    requires |parts| >= 2
    ensures Join(parts, sep) == Join(parts[..|parts| - 1], sep) + [sep] + parts[|parts| - 1]
    decreases |parts|
  {
    if |parts| > 2 {
      JoinSnoc(parts[1..], sep);
      assert parts[1..][..|parts| - 2] == parts[..|parts| - 1][1..];
    }
  }

  /** loadProviderByClass's split: the last dotted segment is the class name,
      the others re-joined with dots are the module path. */
  function SplitClassPath(classpath: string): (r: (string, string))
    ensures Dot !in r.1
  {
    var parts := Split(classpath, Dot);
    (Join(parts[..|parts| - 1], Dot), parts[|parts| - 1])
  }

  /** With at least one dot, module path + "." + class name is the class path;
      with none, the module path is empty and the class name is the whole string. */
  lemma ClassPathRoundTrip(classpath: string)
    ensures var (modulePath, className) := SplitClassPath(classpath);
            (Dot in classpath ==> modulePath + [Dot] + className == classpath) &&
            (Dot !in classpath ==> modulePath == "" && className == classpath)
  {
    var parts := Split(classpath, Dot);
    JoinSplit(classpath, Dot);
    if Dot in classpath {
      JoinSnoc(parts, Dot);
    } else {
      SplitNoSeparator(classpath, Dot);
    }
  }

  /** The split is the only way to write the class path as a module path, a dot
      and a dot-free class name: the class name is what follows the last dot. */
  lemma ClassPathUnique(classpath: string, modulePath: string, className: string)
    requires Dot !in className
    requires modulePath + [Dot] + className == classpath
    ensures SplitClassPath(classpath) == (modulePath, className)
  {
    var parts := Split(modulePath, Dot) + [className];
    assert forall i :: 0 <= i < |parts| ==> Dot !in parts[i];
    JoinSplit(modulePath, Dot);
    JoinSnoc(parts, Dot);
    assert parts[..|parts| - 1] == Split(modulePath, Dot);
    SplitJoin(parts, Dot);
  }
}
