/** `NVPSystem::exePath` on Linux: the directory of the running executable,
    read once from the `/proc/self/exe` link and cached in two statics. The
    link read itself is I/O; its result (the byte count `readlink` returned
    and the buffer it filled) is a parameter. */
module Paths {
  import opened Common

  /** The directory part of a path: everything up to and including the last
      '/', or the whole text when it holds no '/'. */
  function ExeDir(text: string): (r: string)
    ensures r <= text
    ensures '/' in text ==> |r| > 0 && r[|r| - 1] == '/' && '/' !in text[|r|..]
    ensures '/' !in text ==> r == text
  {
    match RFind(text, '/')
    case None => text
    case Some(last) =>
      assert text[..last] + "/" == text[..last + 1];
      text[..last] + "/"
  }

  /** The string built from the `readlink` result: its first `length` bytes,
      or nothing when the read failed. */
  function LinkText(length: int, buffer: string): (r: string)
    requires length <= |buffer|
    ensures r <= buffer
    ensures |r| == if length > 0 then length else 0
  {
    if length > 0 then buffer[..length] else ""
  }

  /** Taking the directory twice changes nothing. */
  lemma ExeDirIdempotent(text: string)
    ensures ExeDir(ExeDir(text)) == ExeDir(text)
  {
    var d := ExeDir(text);
    if '/' in text {
      assert d[|d| - 1] == '/';
    }
  }

  /** A directory ending in '/' followed by a file name without '/' gives that
      directory back: `ExeDir` undoes appending the executable's name. */
  lemma ExeDirOfJoin(dir: string, name: string)
    requires |dir| > 0 && dir[|dir| - 1] == '/'
    requires '/' !in name
    ensures ExeDir(dir + name) == dir
  {
    var text := dir + name;
    assert text[|dir| - 1] == '/';
    var k := RFind(text, '/').value;
    assert text[..k] + "/" == dir;
  }

  /** The statics `s_exePath` and `s_exePathInit`. */
  class ExePathCache {
    var exePath: string
    var exePathInit: bool

    constructor()
      ensures exePath == "" && !exePathInit
    {
      exePath := "";
      exePathInit := false;
    }

    /** `exePath`: the first call builds the directory from the link text and
        caches it; later calls return the cached string and ignore the link
        (which they do not read). `readlink` never reports more bytes than
        its buffer holds. */
    method ExePath(linkLength: int, linkBuffer: string) returns (r: string)
      requires linkLength <= |linkBuffer|
      modifies this
      ensures exePathInit && r == exePath
      ensures old(exePathInit) ==> r == old(exePath)
      ensures !old(exePathInit) ==> r == ExeDir(LinkText(linkLength, linkBuffer))
    {
      if !exePathInit {
        exePath := LinkText(linkLength, linkBuffer);
        var last := RFind(exePath, '/');
        if last.Some? {
          exePath := exePath[..last.value] + "/";
        }
        exePathInit := true;
      }
      r := exePath;
    }
  }

  /** Whatever the link reads, the cached path is a prefix of it that either
      ends in '/' or contains no '/' at all; a failed read yields "". */
  lemma ExePathShape(linkLength: int, linkBuffer: string)
    requires linkLength <= |linkBuffer|
    ensures var r := ExeDir(LinkText(linkLength, linkBuffer));
      r <= linkBuffer
      && ((|r| > 0 && r[|r| - 1] == '/') || '/' !in r)
      && (linkLength <= 0 ==> r == "")
  {
    var t := LinkText(linkLength, linkBuffer);
    var r := ExeDir(t);
    assert r <= t;
    if '/' !in t {
      assert r == t;
    }
  }
}
