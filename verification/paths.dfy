/**
 * The POSIX path operations `process` uses to name its outputs:
 * `os.path.basename`, `os.path.splitext(...)[0]` and `os.path.join`,
 * and the video id derived from the input path.
 */
module Paths {
  import opened Wrappers
  import opened PyStr

  /** `os.path.basename(p)`: everything after the last '/'. */
  function Basename(p: string): (b: string)
    ensures |b| <= |p| && b == p[|p| - |b|..]
    ensures '/' !in b
    ensures |b| < |p| ==> p[|p| - |b| - 1] == '/'
    decreases |p|
  {
    if p == [] || p[|p| - 1] == '/' then []
    else Basename(p[..|p| - 1]) + [p[|p| - 1]]
  }

  /** A last path component appended after a directory part ending in '/' is its own basename. */
  lemma {:induction false} BasenameOfSuffix(dir: string, name: string)
    requires dir == [] || dir[|dir| - 1] == '/'
    requires '/' !in name
    ensures Basename(dir + name) == name
    decreases |name|
  {
    if name == [] {
      assert dir + name == dir;
    } else {
      var init, last := name[..|name| - 1], name[|name| - 1];
      SnocParts(dir, name);
      assert last in name;
      BasenameStep(dir + name);
      BasenameOfSuffix(dir, init);
      assert init + [last] == name;
    }
  }

  /** One step of `Basename` on a path not ending in '/'. */
  lemma BasenameStep(p: string)
    requires p != [] && p[|p| - 1] != '/'
    ensures Basename(p) == Basename(p[..|p| - 1]) + [p[|p| - 1]]
  {
  }

  /** Dropping the last character of `dir + name` drops it from `name`. */
  lemma SnocParts(dir: string, name: string)
    requires name != []
    ensures (dir + name)[..|dir + name| - 1] == dir + name[..|name| - 1]
    ensures (dir + name)[|dir + name| - 1] == name[|name| - 1]
  {
  }

  /** Index of the last `c` in `s`, if any. */
  function LastIndexOf(s: string, c: char): (r: Option<nat>)
    ensures r.None? <==> c !in s
    ensures r.Some? ==> r.value < |s| && s[r.value] == c && c !in s[r.value + 1..]
    decreases |s|
  {
    if s == [] then None
    else if s[|s| - 1] == c then Some(|s| - 1)
    else
      var r := LastIndexOf(s[..|s| - 1], c);
      assert s == s[..|s| - 1] + [s[|s| - 1]];
      r
  }

  predicate HasNonDot(s: string)
  {
    exists j :: 0 <= j < |s| && s[j] != '.'
  }

  /**
   * `os.path.splitext(name)[0]` for a name without '/': the part before the
   * last '.', unless only dots precede that '.' (a leading-dot name such as
   * ".profile" has no extension). `StripExtensionSpec` states what it gives.
   */
  function StripExtension(name: string): string
  {
    match LastIndexOf(name, '.')
    case None => name
    case Some(d) => if HasNonDot(name[..d]) then name[..d] else name
  }

  /**
   * The stem is a prefix of the name. When an extension is removed, it is
   * the last '.' and what follows it, and the stem has a character other
   * than '.'; when nothing is removed, the name has no '.' or only dots
   * precede its last '.'.
   */
  lemma StripExtensionSpec(name: string)
    ensures var stem := StripExtension(name);
      && |stem| <= |name| && stem == name[..|stem|]
      && (stem != name ==>
            name[|stem|] == '.' && '.' !in name[|stem| + 1..] && HasNonDot(stem))
      && (stem == name ==>
            '.' !in name || !HasNonDot(name[..LastIndexOf(name, '.').value]))
  {
  }

  lemma StripExtensionOf(stem: string, ext: string)
    requires HasNonDot(stem)
    requires '.' !in ext
    ensures StripExtension(stem + "." + ext) == stem
  {
    var name := stem + "." + ext;
    assert name[|stem|] == '.';
    assert name[..|stem|] == stem;
  }

  /** `os.path.join(a, b)` on POSIX for two components; `JoinParts` states what it gives. */
  function Join(a: string, b: string): string
  {
    if |b| > 0 && b[0] == '/' then b
    else if a == [] || a[|a| - 1] == '/' then a + b
    else a + "/" + b
  }

  /**
   * An absolute second component replaces the first; otherwise the result
   * starts with the first component, ends with the second, and has exactly
   * one '/' between them when the first does not already end with one.
   */
  lemma JoinParts(a: string, b: string)
    ensures |b| > 0 && b[0] == '/' ==> Join(a, b) == b
    ensures (|b| == 0 || b[0] != '/') ==>
      && |a| + |b| <= |Join(a, b)| <= |a| + 1 + |b|
      && Join(a, b)[..|a|] == a
      && Join(a, b)[|Join(a, b)| - |b|..] == b
      && (|Join(a, b)| == |a| + 1 + |b| <==> a != [] && a[|a| - 1] != '/')
      && (a != [] && a[|a| - 1] != '/' ==> Join(a, b) == a + "/" + b)
      && (a == [] || a[|a| - 1] == '/' ==> Join(a, b) == a + b)
  {
    if (|b| == 0 || b[0] != '/') && a != [] && a[|a| - 1] != '/' {
      assert Join(a, b) == a + "/" + b;
    }
  }

  /** Joining a name that has no '/' yields a path whose basename is that name. */
  lemma JoinBasename(a: string, b: string)
    requires '/' !in b
    ensures Basename(Join(a, b)) == b
  {
    if a == [] || a[|a| - 1] == '/' {
      BasenameOfSuffix(a, b);
    } else {
      assert a + "/" + b == (a + "/") + b;
      BasenameOfSuffix(a + "/", b);
    }
  }

  /** `os.path.splitext(os.path.basename(input_path))[0]`. */
  function VideoId(inputPath: string): (id: string)
    ensures '/' !in id
    ensures |id| <= |inputPath|
  {
    StripExtensionSpec(Basename(inputPath));
    StripExtension(Basename(inputPath))
  }

  /** A file `dir/stem.ext` has video id `stem`. */
  lemma VideoIdOfFile(dir: string, stem: string, ext: string)
    requires '/' !in stem && '/' !in ext && '.' !in ext
    requires HasNonDot(stem)
    ensures VideoId(dir + "/" + stem + "." + ext) == stem
  {
    var name := stem + "." + ext;
    assert '/' !in name;
    assert dir + "/" + stem + "." + ext == (dir + "/") + name;
    BasenameOfSuffix(dir + "/", name);
    StripExtensionOf(stem, ext);
  }
}
