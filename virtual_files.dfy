/**
 * What the plugin reads of an IDE `VirtualFile`: its path, its name, its parent's path and the
 * extension derived from the name.
 */
module VirtualFiles {
  import opened Wrappers
  import Text

  /** A file as the IDE reports it; `parentPath` is `None` for a root (`file.parent == null`). */
  datatype VFile = VFile(path: string, name: string, parentPath: Option<string>)

  /**
   * `VirtualFile.extension`: the text after the last '.' of the name, or `None` when the name
   * has no '.'. A name ending in '.' has the empty extension.
   */
  function Extension(name: string): (r: Option<string>)
    ensures r.None? <==> '.' !in name
    ensures r.Some? ==> '.' !in r.value && exists b :: name == b + "." + r.value
  {
    match Text.LastIndexOf(name, '.')
    case None => None
    case Some(i) =>
      assert name == name[..i] + "." + name[i + 1..];
      Some(name[i + 1..])
  }

  /** The extension of `base.ext` is `ext` whenever `ext` has no '.' of its own. */
  lemma ExtensionOf(base: string, ext: string)
    requires '.' !in ext
    ensures Extension(base + "." + ext) == Some(ext)
  {
    var name := base + "." + ext;
    var i := Text.LastIndexOf(name, '.');
    assert name[|base|] == '.';
    assert i.Some?;
    assert name[|base| + 1..] == ext;
  }
}
