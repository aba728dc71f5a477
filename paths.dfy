/**
 * The POSIX path helpers the workflows use: `os.path.splitext`,
 * `os.path.basename` and two-part `os.path.join`.
 */
module Paths {
  import opened Strings
  import opened JsonValues

  /** Some character of `s[from..to]` is not a dot. */
  predicate HasNonDot(s: string, from: int, to: int)
    requires 0 <= from <= to <= |s|
  {
    exists k :: from <= k < to && s[k] != '.'
  }

  /**
   * `os.path.splitext(p)`: the extension is the last `.` and what follows
   * it, provided that dot lies in the last path component and is not one of
   * the dots the component starts with; otherwise there is no extension.
   */
  function SplitExt(p: string): (r: (string, string))
    ensures r.0 + r.1 == p
    ensures r.1 == [] || (r.1[0] == '.' && '.' !in r.1[1..] && '/' !in r.1)
  {
    var sep := LastIndexOf(p, '/');
    var dot := LastIndexOf(p, '.');
    if dot > sep && HasNonDot(p, sep + 1, dot) then (p[..dot], p[dot..]) else (p, "")
  }

  /** Where the last dot of `name + "." + ext` sits when `ext` has none. */
  lemma LastDotOf(name: string, ext: string)
    requires '.' !in ext
    ensures LastIndexOf(name + "." + ext, '.') == |name|
  {
    var p := name + "." + ext;
    assert p[|name|] == '.' && p[|name| + 1..] == ext;
  }

  lemma NoSlashIn(name: string, ext: string)
    requires '/' !in name && '/' !in ext
    ensures '/' !in name + "." + ext
  {
    var p := name + "." + ext;
    forall k | 0 <= k < |p|
      ensures p[k] != '/'
    {
      if k < |name| {
        assert p[k] == name[k];
      } else if k > |name| {
        assert p[k] == ext[k - |name| - 1];
      }
    }
  }

  /**
   * A plain file name with an extension splits at its dot: `report.txt`
   * gives `report` and `.txt`; a name with no dot has no extension.
   */
  lemma SplitExtOfName(name: string, ext: string)
    requires '/' !in name && '/' !in ext && '.' !in ext
    requires |name| > 0 && name[0] != '.'
    ensures SplitExt(name + "." + ext) == (name, "." + ext)
    ensures '.' !in name ==> SplitExt(name) == (name, "")
  {
    var p := name + "." + ext;
    LastDotOf(name, ext);
    NoSlashIn(name, ext);
    assert LastIndexOf(p, '/') == -1;
    assert p[0] == name[0];
    assert HasNonDot(p, 0, |name|);
    assert p[..|name|] == name && p[|name|..] == "." + ext;
  }

  /** `os.path.basename(p)`: what follows the last `/`. */
  function Basename(p: string): (r: string)
    ensures '/' !in r && EndsWith(p, r)
    ensures '/' !in p ==> r == p
  {
    p[LastIndexOf(p, '/') + 1..]
  }

  /**
   * `os.path.join(dir, name)`: an absolute `name` replaces `dir`; otherwise
   * a `/` separates the two unless `dir` is empty or already ends with one.
   */
  function JoinPath(dir: string, name: string): (r: string)
    ensures EndsWith(r, name)
    ensures |name| > 0 && name[0] == '/' ==> r == name
    ensures (|name| == 0 || name[0] != '/') && |dir| > 0 && dir[|dir| - 1] != '/' ==> r == dir + "/" + name
  {
    if |name| > 0 && name[0] == '/' then name
    else if dir == "" || dir[|dir| - 1] == '/' then dir + name
    else dir + "/" + name
  }
}
