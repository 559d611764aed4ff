/** POSIX path handling as Node's `path` module does it: `extname`, `basename`,
    `dirname` and `join` (with its normalisation of `.`, `..` and repeated slashes). */
module Paths {
  import opened Common

  /** The index of the last occurrence of `c` in `s`. */
  function LastIndexOf(s: string, c: char): (r: Option<nat>)
    ensures r.Some? ==> r.value < |s| && s[r.value] == c
    ensures r.Some? ==> forall j :: r.value < j < |s| ==> s[j] != c
    ensures r.None? ==> c !in s
  {
    if |s| == 0 then None
    else if s[|s| - 1] == c then Some(|s| - 1)
    else LastIndexOf(s[..|s| - 1], c)
  }

  function TrimTrailingSlashes(p: string): (r: string)
    ensures |r| <= |p| && r == p[..|r|]
    ensures r == [] || r[|r| - 1] != '/'
    ensures forall i :: |r| <= i < |p| ==> p[i] == '/'
  {
    if |p| > 0 && p[|p| - 1] == '/' then TrimTrailingSlashes(p[..|p| - 1]) else p
  }

  /** `path.basename(p)`: the last segment, trailing slashes ignored. */
  function BaseName(p: string): (r: string)
    ensures '/' !in r
  {
    var t := TrimTrailingSlashes(p);
    match LastIndexOf(t, '/')
    case None => t
    case Some(i) => t[i + 1..]
  }

  /** `path.extname(p)`: from the last '.' of the base name to its end; empty when there is
      no '.', when the only '.' leads the base name, and for "..". */
  function ExtName(p: string): (r: string)
    ensures r == [] || (r[0] == '.' && |r| < |BaseName(p)| && EndsWith(BaseName(p), r))
    ensures '/' !in r
  {
    var b := BaseName(p);
    match LastIndexOf(b, '.')
    case None => ""
    case Some(i) => if i == 0 || b == ".." then "" else b[i..]
  }

  /** `path.basename(p, ext)` for an `ext` that is empty or a proper suffix of the base name,
      which is how it is called with `ext == extname(p)`. */
  function BaseNameWithout(p: string, ext: string): (r: string)
    ensures '/' !in r
  {
    var b := BaseName(p);
    if ext != [] && |ext| < |b| && EndsWith(b, ext) then b[..|b| - |ext|] else b
  }

  /** The base name is the name without its extension followed by the extension. */
  lemma BaseNameSplitsAtExt(p: string)
    ensures BaseName(p) == BaseNameWithout(p, ExtName(p)) + ExtName(p)
  {
  }

  /** `path.dirname(p)`: everything before the last separator that precedes the last
      segment; "." without one, "/" for a rooted single segment. */
  function DirName(p: string): (r: string)
    ensures r != []
  {
    if |p| == 0 then "."
    else
      var end := DirEnd(p, |p| - 1, true);
      if end.None? then (if p[0] == '/' then "/" else ".")
      else if p[0] == '/' && end.value == 1 then "//"
      else p[..end.value]
  }

  /** Scanning right to left from `i` down to index 1, the first '/' met after a non-slash
      character. */
  function DirEnd(p: string, i: int, matchedSlash: bool): (r: Option<nat>)
    requires i < |p|
    ensures r.Some? ==> 1 <= r.value <= i && p[r.value] == '/'
    decreases i
  {
    if i < 1 then None
    else if p[i] == '/' then (if !matchedSlash then Some(i) else DirEnd(p, i - 1, true))
    else DirEnd(p, i - 1, false)
  }

  // ---------------------------------------------------------------------------
  // join and normalisation

  /** Resolves the segments of a path: empty and "." segments vanish, ".." removes the
      previous segment, or is kept (relative paths) or dropped (rooted paths) when there
      is none to remove. */
  function ResolveSegments(segs: seq<string>, allowAboveRoot: bool): (r: seq<string>)
    ensures forall k :: 0 <= k < |r| ==> r[k] != "" && r[k] != "."
    ensures forall k :: 0 <= k < |r| ==> r[k] == ".." || r[k] in segs
    decreases |segs|
  {
    if |segs| == 0 then []
    else
      var prev := ResolveSegments(segs[..|segs| - 1], allowAboveRoot);
      var s := segs[|segs| - 1];
      if s == "" || s == "." then prev
      else if s == ".." then
        (if |prev| > 0 && prev[|prev| - 1] != ".." then prev[..|prev| - 1]
         else if allowAboveRoot then prev + [".."] else prev)
      else prev + [s]
  }

  /** `path.normalize(p)`. */
  function Normalize(p: string): (r: string)
  {
    if |p| == 0 then "." else Assemble(p[0] == '/', p[|p| - 1] == '/', NormalBody(p))
  }

  /** The normalised text from its parts: a root, the joined segments, a trailing slash. */
  function Assemble(rooted: bool, trailing: bool, body: string): string {
    if body == "" then (if rooted then "/" else if trailing then "./" else ".")
    else
      var withTrailing := if trailing then body + "/" else body;
      if rooted then "/" + withTrailing else withTrailing
  }

  /** The resolved segments of a path joined with separators. */
  function NormalBody(p: string): string
    requires p != []
  {
    Join(ResolveSegments(Split(p, '/'), p[0] != '/'), "/")
  }

  /** `path.join(dir, name)` for two non-empty parts. */
  function JoinPath(dir: string, name: string): string {
    Normalize(dir + "/" + name)
  }

  // ---------------------------------------------------------------------------
  // Joining a plain file name onto a directory

  /** A file name that normalisation leaves alone: non-empty, no separator, not "." or "..". */
  predicate IsPlainName(name: string) {
    name != "" && '/' !in name && name != "." && name != ".."
  }

  lemma SplitWithoutSeparator(t: string, sep: char)
    requires sep !in t
    ensures Split(t, sep) == [t]
  {
    forall k | 0 <= k < |t|
      ensures !OccursAt(t, [sep], k)
    {
      assert t[k..k + 1] == [t[k]];
    }
  }

  /** Searching for a one-character pattern in `s + w` finds what the search in `s` finds,
      or, when `s` has none, the start of `w` if that is the character. */
  lemma IndexOfCharExtended(s: string, w: string, c: char)
    ensures IndexOfFrom(s, [c], 0).Some? ==> IndexOfFrom(s + w, [c], 0) == IndexOfFrom(s, [c], 0)
    ensures IndexOfFrom(s, [c], 0).None? && w != [] && w[0] == c ==> IndexOfFrom(s + w, [c], 0) == Some(|s|)
  {
    var u := s + w;
    var i := IndexOfFrom(s, [c], 0);
    var n := if i.Some? then i.value else |s|;
    forall m | 0 <= m < n
      ensures !OccursAt(u, [c], m)
    {
      assert u[m..m + 1] == s[m..m + 1];
      assert !OccursAt(s, [c], m);
    }
    if i.Some? {
      assert OccursAt(s, [c], n);
      assert u[n..n + 1] == s[n..n + 1];
      assert OccursAt(u, [c], n);
    } else if w != [] && w[0] == c {
      assert u[n..n + 1] == [c];
      assert OccursAt(u, [c], n);
    }
  }

  /** Splitting `s + sep + t` gives the pieces of `s` followed by `t`. */
  lemma {:induction false} SplitAppendPiece(s: string, sep: char, t: string)
    requires sep !in t
    ensures Split(s + [sep] + t, sep) == Split(s, sep) + [t]
    decreases |s|
  {
    var u := s + [sep] + t;
    var i := IndexOfFrom(s, [sep], 0);
    IndexOfCharExtended(s, [sep] + t, sep);
    assert u == s + ([sep] + t);
    if i.None? {
      assert u[..|s|] == s && u[|s| + 1..] == t;
      SplitWithoutSeparator(t, sep);
    } else {
      var k := i.value;
      assert u[..k] == s[..k];
      assert u[k + 1..] == s[k + 1..] + [sep] + t;
      SplitAppendPiece(s[k + 1..], sep, t);
    }
  }

  /** Joining with one more piece. */
  lemma {:induction false} JoinSnoc(parts: seq<string>, x: string, sep: string)
    ensures Join(parts + [x], sep) == if parts == [] then x else Join(parts, sep) + sep + x
    decreases |parts|
  {
    if |parts| > 1 {
      assert (parts + [x])[1..] == parts[1..] + [x];
      JoinSnoc(parts[1..], x, sep);
    } else if |parts| == 1 {
      assert (parts + [x])[1..] == [x];
    }
  }

  /** Resolved segments never start with an empty piece, so they join to a non-empty text. */
  lemma JoinResolvedNonEmpty(r: seq<string>)
    requires r != [] && r[0] != ""
    ensures Join(r, "/") != ""
  {
  }

  lemma {:induction false} DirEndFinds(p: string, i: int, matchedSlash: bool, k: int)
    requires 1 <= k <= i < |p| && p[k] == '/'
    requires forall j :: k < j <= i ==> p[j] != '/'
    requires matchedSlash ==> k < i
    ensures DirEnd(p, i, matchedSlash) == Some(k)
    decreases i
  {
    if i > k {
      DirEndFinds(p, i - 1, false, k);
    }
  }

  lemma {:induction false} DirEndNone(p: string, i: int, matchedSlash: bool)
    requires i < |p|
    requires forall j :: 1 <= j <= i ==> p[j] != '/'
    ensures DirEnd(p, i, matchedSlash) == None
    decreases i
  {
    if i >= 1 {
      DirEndNone(p, i - 1, false);
    }
  }

  function RootPrefix(dir: string): string
    requires dir != []
  {
    if dir[0] == '/' then "/" else ""
  }

  lemma ResolveJoined(dir: string, name: string)
    requires dir != [] && IsPlainName(name)
    ensures ResolveSegments(Split(dir + "/" + name, '/'), dir[0] != '/')
            == ResolveSegments(Split(dir, '/'), dir[0] != '/') + [name]
  {
    SplitAppendPiece(dir, '/', name);
    var segs := Split(dir, '/');
    assert (segs + [name])[..|segs|] == segs;
  }

  /** `normalize(dir + "/" + name)` resolves the segments of `dir` and then appends `name`. */
  lemma JoinPathBody(dir: string, name: string)
    requires dir != [] && IsPlainName(name)
    ensures var p := dir + "/" + name;
      p[|p| - 1] != '/' && RootPrefix(p) == RootPrefix(dir)
      && NormalBody(p) == if NormalBody(dir) == "" then name else NormalBody(dir) + "/" + name
  {
    var p := dir + "/" + name;
    assert p[0] == dir[0] && p[|p| - 1] == name[|name| - 1] != '/';
    ResolveJoined(dir, name);
    var res := ResolveSegments(Split(dir, '/'), dir[0] != '/');
    JoinSnoc(res, name, "/");
    if res != [] {
      JoinResolvedNonEmpty(res);
    }
  }

  lemma JoinPathAssembles(dir: string, name: string)
    requires dir != [] && IsPlainName(name)
    ensures JoinPath(dir, name) == Assemble(dir[0] == '/', false, NormalBody(dir + "/" + name))
  {
    var p := dir + "/" + name;
    assert p[0] == dir[0] && p[|p| - 1] == name[|name| - 1];
  }

  lemma JoinPathShape(dir: string, name: string)
    requires dir != [] && IsPlainName(name)
    ensures JoinPath(dir, name)
            == Assemble(dir[0] == '/', false, if NormalBody(dir) == "" then name else NormalBody(dir) + "/" + name)
  {
    JoinPathAssembles(dir, name);
    JoinPathBody(dir, name);
  }


  lemma NormalizeShape(dir: string)
    requires dir != [] && dir[|dir| - 1] != '/'
    ensures Normalize(dir) == Assemble(dir[0] == '/', false, NormalBody(dir))
  {
  }

  lemma BaseNameAfterSlash(pre: string, name: string)
    requires IsPlainName(name)
    ensures BaseName(pre + "/" + name) == name
  {
    var out := pre + "/" + name;
    var k := |pre|;
    assert out[|out| - 1] == name[|name| - 1] != '/';
    assert TrimTrailingSlashes(out) == out;
    assert out[k] == '/';
    assert forall j :: k < j < |out| ==> out[j] == name[j - k - 1];
    assert forall j :: k < j < |out| ==> out[j] != '/';
    var r := LastIndexOf(out, '/');
    assert r.Some? by {
      assert out[k] in out;
    }
    assert r.value >= k by {
      assert out[k] == '/';
    }
    assert r == Some(k);
    assert out[k + 1..] == name;
  }

  lemma BaseNameOfPlain(name: string)
    requires IsPlainName(name)
    ensures BaseName(name) == name
  {
    assert TrimTrailingSlashes(name) == name;
  }

  lemma JoinKeepsName(dir: string, name: string)
    requires dir != [] && IsPlainName(name)
    ensures BaseName(JoinPath(dir, name)) == name
  {
    JoinPathShape(dir, name);
    var body := NormalBody(dir);
    if body == "" {
      if dir[0] == '/' {
        assert Assemble(true, false, name) == "" + "/" + name;
        BaseNameAfterSlash("", name);
      } else {
        BaseNameOfPlain(name);
      }
    } else {
      var pre := if dir[0] == '/' then "/" + body else body;
      assert Assemble(dir[0] == '/', false, body + "/" + name) == pre + "/" + name;
      BaseNameAfterSlash(pre, name);
    }
  }

  lemma DirNameOfPlain(name: string)
    requires IsPlainName(name)
    ensures DirName(name) == "." && DirName("/" + name) == "/"
  {
    DirEndNone(name, |name| - 1, true);
    var rooted := "/" + name;
    assert forall j :: 1 <= j < |rooted| ==> rooted[j] == name[j - 1];
    DirEndNone(rooted, |rooted| - 1, true);
  }

  lemma DirNameAfterSlash(pre: string, name: string)
    requires IsPlainName(name) && pre != [] && pre != "/"
    ensures DirName(pre + "/" + name) == pre
  {
    var out := pre + "/" + name;
    assert out[|pre|] == '/';
    assert forall j :: |pre| < j < |out| ==> out[j] == name[j - |pre| - 1];
    DirEndFinds(out, |out| - 1, true, |pre|);
    assert out[..|pre|] == pre;
  }

  lemma JoinKeepsDir(dir: string, name: string)
    requires dir != [] && IsPlainName(name) && dir[|dir| - 1] != '/'
    ensures DirName(JoinPath(dir, name)) == Normalize(dir)
  {
    JoinPathShape(dir, name);
    NormalizeShape(dir);
    var body := NormalBody(dir);
    if body == "" {
      DirNameOfPlain(name);
    } else {
      var pre := if dir[0] == '/' then "/" + body else body;
      assert Assemble(dir[0] == '/', false, body + "/" + name) == pre + "/" + name;
      assert Assemble(dir[0] == '/', false, body) == pre;
      DirNameAfterSlash(pre, name);
    }
  }

  /** `join(dir, name)` puts a plain name into the normalised directory: its base name is
      `name` and, for a directory written without a trailing slash, its directory is
      `normalize(dir)`. */
  lemma JoinPlacesNameInDir(dir: string, name: string)
    requires dir != [] && IsPlainName(name)
    ensures BaseName(JoinPath(dir, name)) == name
    ensures dir[|dir| - 1] != '/' ==> DirName(JoinPath(dir, name)) == Normalize(dir)
  {
    JoinKeepsName(dir, name);
    if dir[|dir| - 1] != '/' {
      JoinKeepsDir(dir, name);
    }
  }
}
