/**
  The music player's pure parts: the track title taken from a file path
  (the path's stem, as std::filesystem computes it on Windows) and the
  title as the panel displays it.
 */
module Player {

  /** The longest title the panel shows unabridged, in bytes (one `char` per byte). */
  const MaxTitle := 40

  /** The title line of the player panel. */
  function DisplayTitle(title: string): (r: string)
    ensures |r| <= MaxTitle
    ensures title == [] ==> r == "No Track"
    ensures 0 < |title| <= MaxTitle ==> r == title
    ensures |title| > MaxTitle ==> |r| == MaxTitle && r == title[..37] + "..."
  {
    var t := if title == [] then "No Track" else title;
    if |t| > MaxTitle then t[..37] + "..." else t
  }

  /** Showing a displayed title again changes nothing. */
  lemma DisplayTitleIdempotent(title: string)
    ensures DisplayTitle(DisplayTitle(title)) == DisplayTitle(title)
  {
  }

  predicate IsSeparator(c: char)
  {
    c == '\\' || c == '/'
  }

  predicate NoSeparator(s: string)
  {
    forall i :: 0 <= i < |s| ==> !IsSeparator(s[i])
  }

  /** The last component of a path: everything after its last separator. */
  function FileName(path: string): (f: string)
    ensures NoSeparator(f)
    ensures |f| <= |path|
  {
    if path == [] || IsSeparator(path[|path| - 1]) then []
    else FileName(path[..|path| - 1]) + [path[|path| - 1]]
  }

  /**
    The file name is the path's last component: a suffix of the path that
    is either the whole path or starts right after a separator.
   */
  lemma {:induction false} FileNameIsLastComponent(path: string)
    ensures var f := FileName(path);
            && f == path[|path| - |f|..]
            && (|f| == |path| || IsSeparator(path[|path| - |f| - 1]))
  {
    if path != [] && !IsSeparator(path[|path| - 1]) {
      var init := path[..|path| - 1];
      FileNameIsLastComponent(init);
      var g := FileName(init);
      assert init[|init| - |g|..] + [path[|path| - 1]] == path[|path| - |g| - 1..];
    }
  }

  /** Index of the last '.' in `s`, or -1 when there is none. */
  function LastDot(s: string): (k: int)
    ensures -1 <= k < |s|
    ensures k >= 0 ==> s[k] == '.'
    ensures forall i :: k < i < |s| ==> s[i] != '.'
  {
    if s == [] then -1
    else if s[|s| - 1] == '.' then |s| - 1
    else LastDot(s[..|s| - 1])
  }

  /**
    The stem of a file name: the name without its last extension. A name
    whose only dot is its first character ("." and ".." included) is its
    own stem.
   */
  function NameStem(f: string): (s: string)
    ensures |s| <= |f| && s == f[..|s|]
    ensures |s| < |f| ==> 0 < |s| && f[|s|] == '.' && f != ".."
                          && forall i :: |s| < i < |f| ==> f[i] != '.'
    ensures |s| == |f| ==> f == "." || f == ".." || forall i :: 0 < i < |f| ==> f[i] != '.'
  {
    if f == "." || f == ".." then f
    else
      var k := LastDot(f);
      if k > 0 then f[..k] else f
  }

  /** The stem of a path, as std::filesystem computes it: the stem of its file name. */
  function Stem(path: string): (s: string)
    ensures NoSeparator(s)
  {
    var f := FileName(path);
    var s := NameStem(f);
    assert forall i :: 0 <= i < |s| ==> s[i] == f[i];
    s
  }

  /** The stem of a path is a prefix of its file name. */
  lemma StemIsPrefix(path: string)
    ensures var f, s := FileName(path), Stem(path); |s| <= |f| && s == f[..|s|]
  {
  }

  /**
    Where the stem stops: it drops the file name's last dot and what
    follows, unless that dot is the name's first character or the name is
    "." or ".."; a name it keeps whole has no such dot.
   */
  lemma StemShape(path: string)
    ensures var f, s := FileName(path), Stem(path);
            && (|s| < |f| ==> 0 < |s| && f[|s|] == '.' && f != ".."
                              && forall i :: |s| < i < |f| ==> f[i] != '.')
            && (|s| == |f| ==> f == "." || f == ".." || forall i :: 0 < i < |f| ==> f[i] != '.')
  {
  }

  /** A path ending in a separator-free component has that component as its file name. */
  lemma {:induction false} FileNameOfJoin(dir: string, name: string)
    requires NoSeparator(name)
    ensures FileName(dir + "\\" + name) == name
  {
    var p := dir + "\\" + name;
    if name == [] {
      assert p[|p| - 1] == '\\';
    } else {
      var init := name[..|name| - 1];
      assert p[..|p| - 1] == dir + "\\" + init;
      FileNameOfJoin(dir, init);
    }
  }

  /** The last dot of `name.ext` is the one before `ext` when `ext` has none. */
  lemma {:induction false} LastDotBeforeExtension(name: string, ext: string)
    requires forall i :: 0 <= i < |ext| ==> ext[i] != '.'
    ensures LastDot(name + "." + ext) == |name|
  {
    var s := name + "." + ext;
    if ext != [] {
      var init := ext[..|ext| - 1];
      assert s[..|s| - 1] == name + "." + init;
      LastDotBeforeExtension(name, init);
    } else {
      assert s[|s| - 1] == '.';
    }
  }

  /** Loading `dir\name.ext` titles the track `name`. */
  lemma StemOfTrackPath(dir: string, name: string, ext: string)
    requires name != [] && NoSeparator(name)
    requires NoSeparator(ext)
    requires forall i :: 0 <= i < |ext| ==> ext[i] != '.'
    requires name + "." + ext != ".."
    ensures Stem(dir + "\\" + name + "." + ext) == name
  {
    var file := name + "." + ext;
    assert NoSeparator(file) by {
      forall i | 0 <= i < |file| ensures !IsSeparator(file[i]) {
        if i < |name| { assert file[i] == name[i]; }
        else if i > |name| { assert file[i] == ext[i - |name| - 1]; }
      }
    }
    assert dir + "\\" + name + "." + ext == dir + "\\" + file;
    FileNameOfJoin(dir, file);
    LastDotBeforeExtension(name, ext);
    assert file[..|name|] == name;
  }

  /** A path with no separator is its own file name. */
  lemma {:induction false} FileNameOfPlain(path: string)
    requires NoSeparator(path)
    ensures FileName(path) == path
  {
    if path != [] {
      FileNameOfPlain(path[..|path| - 1]);
    }
  }

  /** A bare `name.ext`, with no directory, is titled `name`. */
  lemma StemOfBareName(name: string, ext: string)
    requires name != [] && NoSeparator(name)
    requires NoSeparator(ext)
    requires forall i :: 0 <= i < |ext| ==> ext[i] != '.'
    requires name + "." + ext != ".."
    ensures Stem(name + "." + ext) == name
  {
    var file := name + "." + ext;
    assert NoSeparator(file) by {
      forall i | 0 <= i < |file| ensures !IsSeparator(file[i]) {
        if i < |name| { assert file[i] == name[i]; }
        else if i > |name| { assert file[i] == ext[i - |name| - 1]; }
      }
    }
    FileNameOfPlain(file);
    LastDotBeforeExtension(name, ext);
    assert file[..|name|] == name;
  }

  /** A path ending in a separator names no file: its stem is empty. */
  lemma StemOfDirectory(dir: string)
    ensures Stem(dir + "\\") == ""
  {
    var p := dir + "\\";
    assert IsSeparator(p[|p| - 1]);
  }

  /** A dot file `dir\.ext`, or `dir\.` itself, keeps its whole name as its stem. */
  lemma StemOfDotFile(dir: string, ext: string)
    requires NoSeparator(ext)
    requires forall i :: 0 <= i < |ext| ==> ext[i] != '.'
    ensures Stem(dir + "\\." + ext) == "." + ext
  {
    var file := "." + ext;
    assert NoSeparator(file) by {
      forall i | 0 <= i < |file| ensures !IsSeparator(file[i]) {
        if i > 0 { assert file[i] == ext[i - 1]; }
      }
    }
    assert dir + "\\." + ext == dir + "\\" + file;
    FileNameOfJoin(dir, file);
    if ext != [] {
      assert file == "" + "." + ext;
      LastDotBeforeExtension("", ext);
      assert file != ".." by { assert file[1] == ext[0]; }
    }
  }
}
