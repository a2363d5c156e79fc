/** `os.path.join` with two arguments on a POSIX system, as both the
    downloader and the renamer use it to build a file's path from its
    directory and its name. */
module PosixPath {

  /** The directory part `join` puts in front of a relative name: the directory
      itself when it is empty or already ends in '/', otherwise the directory and a '/'. */
  function DirPrefix(dir: string): string
  {
    if dir == [] || dir[|dir| - 1] == '/' then dir else dir + "/"
  }

  /** `os.path.join(dir, name)`: an absolute name replaces the directory. */
  function Join(dir: string, name: string): (r: string)
    ensures |name| > 0 && name[0] == '/' ==> r == name
  {
    if |name| > 0 && name[0] == '/' then name
    else if dir == [] || dir[|dir| - 1] == '/' then dir + name
    else dir + "/" + name
  }

  /** A name that does not start with '/' is appended to the directory part,
      so it becomes the last component and the directory stays what it was. */
  lemma JoinRelative(dir: string, name: string)
    requires |name| == 0 || name[0] != '/'
    ensures Join(dir, name) == DirPrefix(dir) + name
    ensures Join(dir, name)[..|DirPrefix(dir)|] == DirPrefix(dir)
    ensures Join(dir, name)[|DirPrefix(dir)|..] == name
  {
  }

  /** Two relative names joined to the same directory give the same path only
      when the names are the same. */
  lemma JoinInjective(dir: string, a: string, b: string)
    requires |a| == 0 || a[0] != '/'
    requires |b| == 0 || b[0] != '/'
    ensures Join(dir, a) == Join(dir, b) <==> a == b
  {
    JoinRelative(dir, a);
    JoinRelative(dir, b);
    if Join(dir, a) == Join(dir, b) {
      assert a == Join(dir, a)[|DirPrefix(dir)|..];
    }
  }
}
