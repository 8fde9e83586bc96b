/**
 * The part of `std::path::Path` that the installer relies on: `file_name` of a
 * Unix path held in a `String`. A path is split at every `/`; empty segments
 * (repeated or trailing separators) and `.` segments are not components; the
 * file name is the last component unless that component is `..`.
 */
module Paths {

  /** A name `file_name` can return: one non-empty component other than `.` and `..`. */
  predicate IsNormalName(n: string) {
    n != "" && n != "." && n != ".." && '/' !in n
  }

  /** The segments of `s` between separators; `Split("/a//b") == ["", "a", "", "b"]`. */
  function Split(s: string): (parts: seq<string>)
    ensures |parts| >= 1
    ensures forall i :: 0 <= i < |parts| ==> '/' !in parts[i]
  {
    if s == "" then [""]
    else
      var rest := Split(s[1..]);
      if s[0] == '/' then [""] + rest else [[s[0]] + rest[0]] + rest[1..]
  }

  /** The segments put back together with one `/` between neighbours. */
  function Join(parts: seq<string>): string
    requires |parts| >= 1
  {
    if |parts| == 1 then parts[0] else parts[0] + "/" + Join(parts[1..])
  }

  lemma {:induction false} JoinSplit(s: string)
    ensures Join(Split(s)) == s
  {
    if s != "" {
      var rest := Split(s[1..]);
      JoinSplit(s[1..]);
      if s[0] == '/' {
        assert ([""] + rest)[1..] == rest;
        assert s == "/" + s[1..];
      } else if |rest| == 1 {
        assert s == [s[0]] + s[1..];
      } else {
        var parts := [[s[0]] + rest[0]] + rest[1..];
        assert parts[1..] == rest[1..];
        assert Join(rest) == rest[0] + "/" + Join(rest[1..]);
        assert s == [s[0]] + s[1..];
      }
    }
  }

  /** A name without separators is a single segment. */
  lemma {:induction false} SplitOfName(n: string)
    requires '/' !in n
    ensures Split(n) == [n]
  {
    if n != "" {
      SplitOfName(n[1..]);
      assert n == [n[0]] + n[1..];
    }
  }

  /** Splitting distributes over a separator. */
  lemma {:induction false} SplitConcat(a: string, b: string)
    ensures Split(a + "/" + b) == Split(a) + Split(b)
  {
    if a == "" {
      assert a + "/" + b == "/" + b;
      assert ("/" + b)[1..] == b;
    } else {
      var s := a + "/" + b;
      assert s[0] == a[0];
      assert s[1..] == a[1..] + "/" + b;
      SplitConcat(a[1..], b);
    }
  }

  lemma {:induction false} SplitJoin(parts: seq<string>)
    requires |parts| >= 1
    requires forall i :: 0 <= i < |parts| ==> '/' !in parts[i]
    ensures Split(Join(parts)) == parts
  {
    SplitOfName(parts[0]);
    if |parts| > 1 {
      SplitJoin(parts[1..]);
      SplitConcat(parts[0], Join(parts[1..]));
      assert parts == [parts[0]] + parts[1..];
    }
  }

  /** The segments that are components: neither empty nor `.`. */
  function Keep(parts: seq<string>): (kept: seq<string>)
    ensures |kept| <= |parts|
    ensures forall i :: 0 <= i < |kept| ==> kept[i] in parts && kept[i] != "" && kept[i] != "."
  {
    if parts == [] then []
    else (if parts[0] == "" || parts[0] == "." then [] else [parts[0]]) + Keep(parts[1..])
  }

  lemma {:induction false} KeepConcat(a: seq<string>, b: seq<string>)
    ensures Keep(a + b) == Keep(a) + Keep(b)
  {
    if a == [] {
      assert a + b == b;
    } else {
      assert (a + b)[0] == a[0];
      assert (a + b)[1..] == a[1..] + b;
      KeepConcat(a[1..], b);
    }
  }

  /** The normal components of `path`, as `Path::components` yields them after a root. */
  function Components(path: string): (cs: seq<string>)
    ensures forall i :: 0 <= i < |cs| ==> cs[i] != "" && cs[i] != "." && '/' !in cs[i]
  {
    Keep(Split(path))
  }

  /** `Path::new(path).file_name()`, with `None` written as the empty string. */
  function FileName(path: string): (name: string)
    ensures name == "" || IsNormalName(name)
    ensures name != "" ==> name in Split(path)
  {
    var cs := Components(path);
    if cs == [] || cs[|cs| - 1] == ".." then "" else cs[|cs| - 1]
  }

  lemma FileNameOfName(n: string)
    requires IsNormalName(n)
    ensures FileName(n) == n
  {
    SplitOfName(n);
    assert Keep([n]) == [n] + Keep([]);
  }

  /** The name of an entry in a directory is the entry's own name. */
  lemma FileNameOfChild(dir: string, n: string)
    requires IsNormalName(n)
    ensures FileName(dir + "/" + n) == n
  {
    SplitConcat(dir, n);
    SplitOfName(n);
    KeepConcat(Split(dir), [n]);
    assert Keep([n]) == [n] + Keep([]);
  }

  /** A trailing separator does not change the name: `/usr/bin/` names `bin`. */
  lemma FileNameIgnoresTrailingSeparator(path: string)
    ensures FileName(path + "/") == FileName(path)
  {
    assert path + "/" == path + "/" + "";
    SplitConcat(path, "");
    KeepConcat(Split(path), [""]);
    assert Keep([""]) == [] + Keep([]);
  }

  /** A trailing `.` does not change the name: `foo.txt/.` names `foo.txt`. */
  lemma FileNameIgnoresTrailingCurDir(path: string)
    ensures FileName(path + "/.") == FileName(path)
  {
    var dot: string := ".";
    assert path + "/." == path + "/" + dot;
    SplitConcat(path, dot);
    SplitOfName(dot);
    KeepConcat(Split(path), [dot]);
    assert Keep([dot]) == [] + Keep([]);
    assert Components(path + "/.") == Components(path);
  }

  /** A path ending in `..` has no name. */
  lemma FileNameOfParentRef(path: string)
    ensures FileName(path + "/..") == ""
  {
    assert path + "/.." == path + "/" + "..";
    SplitConcat(path, "..");
    SplitOfName("..");
    KeepConcat(Split(path), [".."]);
    assert Keep([".."]) == [".."] + Keep([]);
  }

  /** The root and the empty path have no name. */
  lemma FileNameOfRoot()
    ensures FileName("/") == "" && FileName("") == ""
  {
    assert Split("") == [""];
    assert "/"[1..] == "";
    assert Split("/") == ["", ""];
    assert Keep(["", ""]) == [] + Keep([""]);
    assert Keep([""]) == [] + Keep([]);
  }
}
