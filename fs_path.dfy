// The parts of Rust's `std::path` the model relies on, for Unix paths:
// `Path::join`, `Path::file_name`, `Path::file_stem` and `Path::extension`.
module FsPath {
  import opened Wrappers
  import opened Strings

  /** `base.join(p)`: an absolute `p` replaces `base`; otherwise one separator joins them. */
  function Join(base: string, p: string): (r: string)
    ensures StartsWith(p, "/") ==> r == p
    ensures !StartsWith(p, "/") ==> EndsWith(r, p)
    ensures !StartsWith(p, "/") && base != [] ==> StartsWith(r, base)
  {
    if StartsWith(p, "/") then p
    else if base == [] || base[|base| - 1] == '/' then
      EndsWithAppend(base, p); StartsWithAppend(base, p);
      base + p
    else
      EndsWithAppend(base + "/", p);
      assert (base + "/" + p)[..|base|] == base;
      base + "/" + p
  }

  /** The last component of a path (trailing separators ignored); `None` for `..` and the root. */
  function FileName(path: string): (r: Option<string>)
    ensures r.Some? ==> '/' !in r.value && r.value != [] && r.value != ".."
  {
    var t := TrimEndMatches(path, '/');
    var last := match LastIndexOf(t, '/') case Some(i) => t[i + 1..] case None => t;
    if last == [] || last == "." || last == ".." then None else Some(last)
  }

  /**
   * Splits a file name at its last dot into stem and extension, as
   * `file_stem` and `extension` do: a name whose only dot is its first
   * character has no extension.
   */
  function SplitExtension(name: string): (r: (string, Option<string>))
    ensures r.1.None? ==> r.0 == name
    ensures r.1.Some? ==> name == r.0 + "." + r.1.value && r.0 != [] && '.' !in r.1.value
  {
    if name == ".." then (name, None)
    else match LastIndexOf(name, '.')
      case None => (name, None)
      case Some(i) =>
        if i == 0 then (name, None)
        else
          assert name == name[..i] + "." + name[i + 1..];
          (name[..i], Some(name[i + 1..]))
  }

  /** A non-empty name with no dot in its extension splits back into the parts it was made from. */
  lemma SplitExtensionAppend(stem: string, ext: string)
    requires stem != [] && '.' !in ext && stem + "." + ext != ".."
    ensures SplitExtension(stem + "." + ext) == (stem, Some(ext))
  {
    var name := stem + "." + ext;
    assert name == stem + ['.'] + ext;
    RSplitOnceAppend(stem, '.', ext);
    var i := LastIndexOf(name, '.').value;
    assert name[..i] == stem && name[i + 1..] == ext;
    assert i > 0;
  }

  /** A plain name joined under a directory is that path's last component. */
  lemma FileNameOfChild(dir: string, name: string)
    requires '/' !in name && name != [] && name != "." && name != ".."
    ensures FileName(dir + "/" + name) == Some(name)
  {
    var s := dir + "/" + name;
    assert s[|s| - 1] == name[|name| - 1];
    assert TrimEndMatches(s, '/') == s;
    RSplitOnceAppend(dir, '/', name);
    assert s == dir + ['/'] + name;
    var i := LastIndexOf(s, '/').value;
    assert s[i + 1..] == name;
  }
}
