/** The code editor behind file operations: the language a path is written in, the
    removal of the markdown fence a model wraps its code in, the choice between the
    syntax-tree editor and a model rewrite, and the create-or-update of one file. */
module CodeEditor {
  import opened Common
  import opened Paths

  // ---------------------------------------------------------------------------
  // Languages

  /** The lower-cased extensions with a language of their own. */
  const KnownExtensions: set<string> := {".ts", ".tsx", ".js", ".jsx", ".py", ".go", ".rs",
    ".java", ".cpp", ".c", ".rb", ".php", ".cs", ".swift", ".kt"}

  /** The extension table of `detectLanguage`: "plaintext" for an extension it does not list. */
  function LanguageOfExtension(ext: string): (lang: string)
    ensures lang == "typescript" <==> ext == ".ts" || ext == ".tsx"
    ensures lang == "javascript" <==> ext == ".js" || ext == ".jsx"
    ensures lang == "plaintext" <==> ext !in KnownExtensions
  {
    if ext == ".ts" || ext == ".tsx" then "typescript"
    else if ext == ".js" || ext == ".jsx" then "javascript"
    else if ext == ".py" then "python"
    else if ext == ".go" then "go"
    else if ext == ".rs" then "rust"
    else if ext == ".java" then "java"
    else if ext == ".cpp" then "cpp"
    else if ext == ".c" then "c"
    else if ext == ".rb" then "ruby"
    else if ext == ".php" then "php"
    else if ext == ".cs" then "csharp"
    else if ext == ".swift" then "swift"
    else if ext == ".kt" then "kotlin"
    else "plaintext"
  }

  /** `detectLanguage`: the language of the lower-cased extension. */
  function DetectLanguage(filePath: string): string {
    LanguageOfExtension(ToLower(ExtName(filePath)))
  }

  /** The languages the syntax-tree editor handles. */
  predicate IsAstLanguage(language: string) {
    language == "typescript" || language == "javascript"
  }

  /** `LastIndexOf` is determined by the position it reports. */
  lemma LastIndexOfAt(s: string, c: char, k: nat)
    requires k < |s| && s[k] == c
    requires forall j :: k < j < |s| ==> s[j] != c
    ensures LastIndexOf(s, c) == Some(k)
  {
  }

  /** The base name of a path without a trailing separator is what follows its last one. */
  lemma BaseNameAt(t: string, k: nat)
    requires k < |t| && t[k] == '/' && t[|t| - 1] != '/'
    requires forall j :: k < j < |t| ==> t[j] != '/'
    ensures BaseName(t) == t[k + 1..]
  {
    assert TrimTrailingSlashes(t) == t;
    LastIndexOfAt(t, '/', k);
  }

  /** A path without any separator is its own base name. */
  lemma BaseNameWithoutSlash(t: string)
    requires '/' !in t
    ensures BaseName(t) == t
  {
    assert t == [] || t[|t| - 1] != '/';
    assert TrimTrailingSlashes(t) == t;
  }

  /** A path `s` that is a separator at `n` followed by `f` has the base name of `f`. */
  lemma BaseNameAfter(s: string, n: nat, f: string)
    requires |s| == n + 1 + |f| && s[n] == '/'
    requires forall j :: 0 <= j < |f| ==> s[n + 1 + j] == f[j]
    requires f != [] && f[|f| - 1] != '/'
    ensures BaseName(s) == BaseName(f)
  {
    assert s[n + 1..] == f;
    match LastIndexOf(f, '/')
    case None =>
      forall j | n < j < |s| ensures s[j] != '/' {
        assert s[j] == f[j - n - 1];
      }
      BaseNameAt(s, n);
      BaseNameWithoutSlash(f);
    case Some(i) =>
      forall j | n + 1 + i < j < |s| ensures s[j] != '/' {
        assert s[j] == f[j - n - 1];
      }
      BaseNameAt(s, n + 1 + i);
      BaseNameAt(f, i);
      assert s[n + 1 + i + 1..] == f[i + 1..];
  }

  /** A path placed under a directory keeps its base name, as long as it does not end in a
      separator. */
  lemma BaseNameUnderDirectory(pre: string, f: string)
    requires f != [] && f[|f| - 1] != '/'
    ensures BaseName(pre + "/" + f) == BaseName(f)
  {
    var s := pre + "/" + f;
    assert forall j :: 0 <= j < |f| ==> s[|pre| + 1 + j] == f[j];
    BaseNameAfter(s, |pre|, f);
  }

  /** The repository prefix the orchestrator puts in front of a planned file does not change
      the language the file is edited as. */
  lemma LanguageUnderRepository(repoPath: string, f: string)
    requires f != [] && f[|f| - 1] != '/'
    ensures DetectLanguage(repoPath + "/" + f) == DetectLanguage(f)
  {
    BaseNameUnderDirectory(repoPath, f);
  }

  // ---------------------------------------------------------------------------
  // Fence removal: the pattern "```<lang>\s*\n([\s\S]*?)\n```" matched the way a
  // backtracking regular-expression engine matches it.

  const Fence: string := "```"
  const ClosingFence: string := "\n```"

  /** At position `j` of the white-space run that starts at `p`: the newline the pattern needs
      is tried at `j`, then at each earlier position; the body ends at the first closing
      fence after that newline. */
  function NewlineThenBody(s: string, p: nat, j: nat): (r: Option<string>)
    requires p <= j <= |s|
    decreases j
  {
    var here :=
      if j < |s| && s[j] == '\n' then
        match IndexOfFrom(s, ClosingFence, j + 1)
        case Some(m) => Some(s[j + 1..m])
        case None => None
      else None;
    if here.Some? || j == p then here else NewlineThenBody(s, p, j - 1)
  }

  /** The body captured by a match that starts at `start`, if the pattern matches there. */
  function MatchAt(s: string, lang: string, start: nat): (r: Option<string>)
  {
    var open := Fence + lang;
    if !OccursAt(s, open, start) then None
    else
      var p := start + |open|;
      NewlineThenBody(s, p, SkipWhite(s, p))
  }

  /** The first match, trying start positions from left to right as `exec` does. */
  function Search(s: string, lang: string, start: nat): (r: Option<string>)
    decreases |s| - start
  {
    if start > |s| then None
    else if MatchAt(s, lang, start).Some? then MatchAt(s, lang, start)
    else Search(s, lang, start + 1)
  }

  /** `cleanCodeResponse`: the trimmed body of the first block fenced with the language, else
      of the first block with any fence, else the whole response trimmed. */
  function CleanCodeResponse(response: string, language: string): (r: string)
    ensures IsTrimmed(r)
  {
    var body :=
      match Search(response, language, 0)
      case Some(b) => b
      case None =>
        match Search(response, "", 0)
        case Some(b) => b
        case None => response;
    TrimShape(body);
    Trim(body)
  }

  lemma {:induction false} SearchNeedsFence(s: string, lang: string, start: nat)
    requires !Contains(s, Fence)
    ensures Search(s, lang, start).None?
    decreases |s| - start
  {
    if start <= |s| {
      var open := Fence + lang;
      assert !OccursAt(s, Fence, start);
      if start + |open| <= |s| {
        assert s[start..start + |open|][..|Fence|] == s[start..start + |Fence|];
        assert open[..|Fence|] == Fence;
      }
      assert MatchAt(s, lang, start).None?;
      SearchNeedsFence(s, lang, start + 1);
    }
  }

  /** A response without any fence is only trimmed. */
  lemma CleanWithoutFence(response: string, language: string)
    requires !Contains(response, Fence)
    ensures CleanCodeResponse(response, language) == Trim(response)
  {
    SearchNeedsFence(response, language, 0);
    SearchNeedsFence(response, "", 0);
  }

  /** The response a model gives when it wraps code in a fence tagged with the language. */
  function Fenced(lang: string, code: string): string {
    Fence + lang + "\n" + code + ClosingFence
  }

  lemma FencedLayout(lang: string, code: string)
    ensures var s := Fenced(lang, code); var p := |Fence + lang|;
      |s| == p + 1 + |code| + 4 && s[..p] == Fence + lang && s[p] == '\n'
      && (forall k :: 0 <= k < |code| ==> s[p + 1 + k] == code[k])
      && s[p + 1..p + 1 + |code|] == code && s[p + 1 + |code|..] == ClosingFence
  {
  }

  lemma NoClosingFenceInside(s: string, p: nat, code: string, i: nat)
    requires !Contains(code, ClosingFence)
    requires p + 1 + |code| <= |s|
    requires forall k :: 0 <= k < |code| ==> s[p + 1 + k] == code[k]
    requires p + 1 <= i && i + |ClosingFence| <= p + 1 + |code|
    ensures !OccursAt(s, ClosingFence, i)
  {
    ContainsIff(code, ClosingFence);
    assert s[i..i + 4] == code[i - p - 1..i - p + 3];
    assert !OccursAt(code, ClosingFence, i - p - 1);
  }

  lemma NoClosingFenceAcross(s: string, end: nat, i: nat)
    requires end < |s| && s[end] == '\n' && i < end < i + |ClosingFence|
    ensures !OccursAt(s, ClosingFence, i)
  {
    if i + 4 <= |s| {
      assert s[i..i + 4][end - i] == s[end];
    }
  }

  /** In a text that holds `code` from `p + 1` on and a closing fence right after it, that
      fence is the first one from `p + 1` on when `code` holds none. */
  lemma FirstClosingFence(s: string, p: nat, code: string)
    requires !Contains(code, ClosingFence)
    requires p + 1 + |code| + |ClosingFence| <= |s|
    requires forall k :: 0 <= k < |code| ==> s[p + 1 + k] == code[k]
    requires s[p + 1 + |code|..p + 1 + |code| + |ClosingFence|] == ClosingFence
    ensures IndexOfFrom(s, ClosingFence, p + 1) == Some(p + 1 + |code|)
  {
    var end := p + 1 + |code|;
    assert s[end] == s[end..end + 4][0];
    forall i | p + 1 <= i < end
      ensures !OccursAt(s, ClosingFence, i)
    {
      if i + 4 <= end {
        NoClosingFenceInside(s, p, code, i);
      } else {
        NoClosingFenceAcross(s, end, i);
      }
    }
    IndexOfFromAt(s, ClosingFence, p + 1, end);
  }

  /** A fenced block at `t` is a match there, capturing the code it wraps. */
  lemma FencedMatchAt(s: string, t: nat, lang: string, code: string)
    requires code != [] && !IsWhite(code[0]) && !Contains(code, ClosingFence)
    requires t + |Fence + lang| + 1 + |code| + |ClosingFence| <= |s|
    requires s[t..t + |Fence + lang|] == Fence + lang && s[t + |Fence + lang|] == '\n'
    requires forall k :: 0 <= k < |code| ==> s[t + |Fence + lang| + 1 + k] == code[k]
    requires var e := t + |Fence + lang| + 1 + |code|; s[e..e + |ClosingFence|] == ClosingFence
    ensures MatchAt(s, lang, t) == Some(code)
  {
    var p := t + |Fence + lang|;
    assert OccursAt(s, Fence + lang, t);
    assert s[p + 1] == code[0];
    assert SkipWhite(s, p + 1) == p + 1;
    assert SkipWhite(s, p) == p + 1;
    FirstClosingFence(s, p, code);
    assert s[p + 1..p + 1 + |code|] == code;
    assert NewlineThenBody(s, p, p) == Some(code);
    assert NewlineThenBody(s, p, p + 1) == Some(code);
  }

  /** `Search` finds the leftmost start position where the pattern matches. */
  lemma {:induction false} SearchFindsLeftmost(s: string, lang: string, start: nat, t: nat)
    requires start <= t <= |s| && MatchAt(s, lang, t).Some?
    requires forall k :: start <= k < t ==> MatchAt(s, lang, k).None?
    ensures Search(s, lang, start) == MatchAt(s, lang, t)
    decreases t - start
  {
    if start < t {
      SearchFindsLeftmost(s, lang, start + 1, t);
    }
  }

  /** Removing the fence a model put around code gives back the code, trimmed. */
  lemma CleanFencedBlock(lang: string, code: string)
    requires code != [] && !IsWhite(code[0]) && !Contains(code, ClosingFence)
    ensures CleanCodeResponse(Fenced(lang, code), lang) == Trim(code)
  {
    var s := Fenced(lang, code);
    FencedLayout(lang, code);
    assert s[0..|Fence + lang|] == s[..|Fence + lang|];
    FencedMatchAt(s, 0, lang, code);
  }

  /** Where the pattern tagged with `lang` occurs, the text has three backticks followed by the
      first character of `lang`. */
  lemma TaggedOpening(s: string, lang: string, k: nat)
    requires lang != [] && OccursAt(s, Fence + lang, k)
    ensures s[k] == '`' && s[k + 1] == '`' && s[k + 2] == '`' && s[k + 3] == lang[0]
  {
    assert s[k..k + |Fence + lang|][3] == lang[0];
    assert s[k..k + |Fence + lang|][..3] == Fence;
  }

  /** No match tagged with `lang` starts inside an untagged block whose body has no backtick,
      nor at the newline that follows it. */
  lemma NoTaggedMatchBefore(s: string, lang: string, a: string, k: nat)
    requires lang != [] && lang[0] != '\n' && '`' !in a
    requires |a| + 9 <= |s| && s[3] == '\n' && s[4 + |a|] == '\n' && s[|a| + 8] == '\n'
    requires forall j :: 4 <= j < 4 + |a| ==> s[j] == a[j - 4]
    requires k < |a| + 9
    ensures MatchAt(s, lang, k).None?
  {
    if OccursAt(s, Fence + lang, k) {
      TaggedOpening(s, lang, k);
      assert false;
    }
  }

  /** Where the characters of an untagged block followed by a tagged one are. */
  lemma UntaggedThenTaggedLayout(lang: string, a: string, code: string)
    ensures var s := Fenced("", a) + "\n" + Fenced(lang, code);
      var t := |a| + 9; var p := t + |Fence + lang|; var e := p + 1 + |code|;
      |s| == e + 4 && s[3] == '\n' && s[4 + |a|] == '\n' && s[|a| + 8] == '\n'
      && (forall j :: 4 <= j < 4 + |a| ==> s[j] == a[j - 4])
      && s[t..p] == Fence + lang && s[p] == '\n'
      && (forall k :: 0 <= k < |code| ==> s[p + 1 + k] == code[k])
      && s[e..e + 4] == ClosingFence
  {
  }

  /** A text laid out as an untagged block, a newline and a tagged block cleans to the tagged
      block's code. */
  lemma TaggedWinsIn(s: string, lang: string, a: string, code: string)
    requires lang != [] && lang[0] != '\n' && '`' !in a
    requires code != [] && !IsWhite(code[0]) && !Contains(code, ClosingFence)
    requires var t := |a| + 9; var p := t + |Fence + lang|; var e := p + 1 + |code|;
      |s| == e + 4 && s[3] == '\n' && s[4 + |a|] == '\n' && s[|a| + 8] == '\n'
      && (forall j :: 4 <= j < 4 + |a| ==> s[j] == a[j - 4])
      && s[t..p] == Fence + lang && s[p] == '\n'
      && (forall k :: 0 <= k < |code| ==> s[p + 1 + k] == code[k])
      && s[e..e + 4] == ClosingFence
    ensures CleanCodeResponse(s, lang) == Trim(code)
  {
    var t := |a| + 9;
    FencedMatchAt(s, t, lang, code);
    forall k | 0 <= k < t
      ensures MatchAt(s, lang, k).None?
    {
      NoTaggedMatchBefore(s, lang, a, k);
    }
    SearchFindsLeftmost(s, lang, 0, t);
  }

  /** An untagged block followed by a block tagged with the language: the tagged one wins,
      even though the untagged one comes first. */
  lemma TaggedFenceTakesPrecedence(lang: string, a: string, code: string)
    requires lang != [] && lang[0] != '\n' && '`' !in a
    requires code != [] && !IsWhite(code[0]) && !Contains(code, ClosingFence)
    ensures CleanCodeResponse(Fenced("", a) + "\n" + Fenced(lang, code), lang) == Trim(code)
  {
    UntaggedThenTaggedLayout(lang, a, code);
    TaggedWinsIn(Fenced("", a) + "\n" + Fenced(lang, code), lang, a, code);
  }

  // ---------------------------------------------------------------------------
  // Files

  /** The message Node gives for a missing file. */
  function NoSuchFile(path: string): string {
    "ENOENT: no such file or directory, open '" + path + "'"
  }

  /** What `readFile` throws for a missing file. */
  function MissingFileError(path: string): string {
    "Failed to read file " + path + ": " + NoSuchFile(path)
  }

  /** `readFile` over a file map. */
  function ReadResult(files: map<string, string>, path: string): (r: Result<string>)
    ensures r.Ok? <==> path in files
    ensures r.Ok? ==> r.value == files[path]
  {
    if path in files then Ok(files[path])
    else Err(MissingFileError(path))
  }

  /** The files of the working copy, by path. */
  class FileStore {
    var files: map<string, string>

    constructor(files: map<string, string>)
      ensures this.files == files
    {
      this.files := files;
    }

    /** `createFile`: refuses a path that exists. */
    method CreateFile(path: string, content: string) returns (r: Result<()>)
      modifies this
      ensures path in old(files) ==> r == Err("File " + path + " already exists") && files == old(files)
      ensures path !in old(files) ==> r == Ok(()) && files == old(files)[path := content]
    {
      if path in files {
        return Err("File " + path + " already exists");
      }
      files := files[path := content];
      return Ok(());
    }

    /** `updateFile`: reads the old content first, so a missing file is an error. */
    method UpdateFile(path: string, content: string) returns (r: Result<()>)
      modifies this
      ensures r.Ok? <==> path in old(files)
      ensures r.Ok? ==> files == old(files)[path := content]
      ensures r.Err? ==> r == Err(ReadResult(old(files), path).error) && files == old(files)
    {
      var original :- ReadResult(files, path);
      files := files[path := content];
      return Ok(());
    }

    /** `deleteFile`: reads, then unlinks; a failure is reported with the path. */
    method DeleteFile(path: string) returns (r: Result<()>)
      modifies this
      ensures r.Ok? <==> path in old(files)
      ensures r.Ok? ==> files == old(files) - {path}
      ensures r.Err? ==> files == old(files)
                         && r.error == "Failed to delete file " + path + ": " + ReadResult(old(files), path).error
    {
      var original := ReadResult(files, path);
      if original.Err? {
        return Err("Failed to delete file " + path + ": " + original.error);
      }
      files := files - {path};
      return Ok(());
    }
  }

  // ---------------------------------------------------------------------------
  // Editing one file

  /** What the models and the syntax-tree editor return for one file: the raw text generated
      for a new file, the code the syntax-tree editor produces (or the error it throws), and
      the raw text of a model rewrite. */
  datatype EditOutcome = EditOutcome(generated: Result<string>, astEdit: Result<string>, rewritten: Result<string>)

  /** `{success, newContent?, error?}`. */
  datatype EditResult = EditResult(success: bool, newContent: Option<string>, error: Option<string>)

  /** `modifyFileContent`: the syntax-tree editor for TypeScript and JavaScript when it
      succeeds, otherwise the cleaned model rewrite. */
  function ModifyFileContent(language: string, o: EditOutcome): Result<string> {
    if IsAstLanguage(language) && o.astEdit.Ok? then o.astEdit
    else if o.rewritten.Err? then Err(o.rewritten.error)
    else Ok(CleanCodeResponse(o.rewritten.value, language))
  }

  /** The syntax-tree editor is consulted only for TypeScript and JavaScript. */
  lemma AstOnlyForScripts(language: string, o: EditOutcome, other: Result<string>)
    requires !IsAstLanguage(language)
    ensures ModifyFileContent(language, o) == ModifyFileContent(language, o.(astEdit := other))
  {
  }

  /** When the syntax-tree editor throws, the model rewrite decides, and its text is cleaned. */
  lemma AstFailureFallsBack(language: string, o: EditOutcome)
    requires o.astEdit.Err?
    ensures ModifyFileContent(language, o).Ok? <==> o.rewritten.Ok?
    ensures o.rewritten.Ok? ==> ModifyFileContent(language, o).value == CleanCodeResponse(o.rewritten.value, language)
    ensures o.rewritten.Ok? ==> IsTrimmed(ModifyFileContent(language, o).value)
  {
  }

  /** What `applyCodeChanges` reports and leaves in the file map: a missing file is created
      from generated code, an existing one is rewritten, and any error becomes an unsuccessful
      result that leaves every file as it was. */
  function ApplyEdit(files: map<string, string>, filePath: string, o: EditOutcome)
    : (r: (EditResult, map<string, string>))
    ensures r.0.success <==> r.0.error.None?
    ensures r.0.success <==> r.0.newContent.Some?
    ensures filePath !in files ==>
              (r.0.success <==> o.generated.Ok?)
              && (r.0.success ==> r.0.newContent.value == CleanCodeResponse(o.generated.value, DetectLanguage(filePath)))
              && (!r.0.success ==> r.0.error == Some(o.generated.error))
    ensures filePath in files ==>
              var m := ModifyFileContent(DetectLanguage(filePath), o);
              (r.0.success <==> m.Ok?)
              && (r.0.success ==> r.0.newContent == Some(m.value))
              && (!r.0.success ==> r.0.error == Some(m.error))
    ensures r.0.success ==> r.1 == files[filePath := r.0.newContent.value]
    ensures !r.0.success ==> r.1 == files
  {
    var language := DetectLanguage(filePath);
    if filePath !in files then
      if o.generated.Err? then (EditResult(false, None, Some(o.generated.error)), files)
      else
        var content := CleanCodeResponse(o.generated.value, language);
        (EditResult(true, Some(content), None), files[filePath := content])
    else
      match ModifyFileContent(language, o)
      case Err(e) => (EditResult(false, None, Some(e)), files)
      case Ok(content) => (EditResult(true, Some(content), None), files[filePath := content])
  }

  /** A file that did not exist is created only with code that is already trimmed. */
  lemma CreatedContentIsTrimmed(files: map<string, string>, filePath: string, o: EditOutcome)
    requires filePath !in files && ApplyEdit(files, filePath, o).0.success
    ensures IsTrimmed(ApplyEdit(files, filePath, o).1[filePath])
  {
  }

  /** `applyCodeChanges`: checks for the file, then creates or updates it through the store. */
  method ApplyCodeChanges(fs: FileStore, filePath: string, o: EditOutcome) returns (r: EditResult)
    modifies fs
    ensures (r, fs.files) == ApplyEdit(old(fs.files), filePath, o)
  {
    var present := filePath in fs.files;
    var language := DetectLanguage(filePath);
    if !present {
      if o.generated.Err? {
        return EditResult(false, None, Some(o.generated.error));
      }
      var content := CleanCodeResponse(o.generated.value, language);
      var created := fs.CreateFile(filePath, content);
      if created.Err? {
        assert false;
      }
      return EditResult(true, Some(content), None);
    }
    var newContent := ModifyFileContent(language, o);
    if newContent.Err? {
      return EditResult(false, None, Some(newContent.error));
    }
    var updated := fs.UpdateFile(filePath, newContent.value);
    if updated.Err? {
      assert false;
    }
    return EditResult(true, Some(newContent.value), None);
  }
}
