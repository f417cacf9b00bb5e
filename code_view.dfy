/**
 * The tab and naming logic of the code viewer (src/components/code-view/index.tsx):
 * extension and language of a file name, the displayed name and directory, the
 * initially selected file, and which tab becomes current when one is closed.
 */
module CodeView {
  import opened Wrappers
  import opened Strings

  datatype CodeFile = CodeFile(name: string, content: string, language: string)

  /** `getFileExtension`: the last piece of `split(".")`, lower-cased (`pop()` is never undefined here). */
  function FileExtension(fileName: string): (ext: string)
    ensures '.' !in ext
  {
    var last := Last(Split(fileName, '.'));
    assert forall i :: 0 <= i < |last| ==> LowerChar(last[i]) != '.';
    Lower(last)
  }

  /** The extension is the lower-cased text after the last ".", or the whole lower-cased name without one. */
  lemma ExtensionIsTextAfterLastDot(fileName: string)
    ensures FileExtension(fileName) == Lower(fileName[LastIndexOf(fileName, '.') + 1..])
    ensures '.' !in fileName ==> FileExtension(fileName) == Lower(fileName)
    ensures '.' !in FileExtension(fileName)
  {
    LastPieceAfterLastIndex(fileName, '.');
    var e := FileExtension(fileName);
    forall i | 0 <= i < |e|
      ensures e[i] != '.'
    {
      assert e[i] == LowerChar(Last(Split(fileName, '.'))[i]);
    }
  }

  /** Writing `base.ext` and reading the extension back gives `ext` lower-cased. */
  lemma ExtensionOfDottedName(base: string, ext: string)
    requires '.' !in ext
    ensures FileExtension(base + "." + ext) == Lower(ext)
  {
    var name := base + "." + ext;
    ExtensionIsTextAfterLastDot(name);
    assert name[|base|] == '.';
    assert name[|base| + 1..] == ext;
  }

  /** The 12-entry `languageMap`. */
  const LanguageMap: map<string, string> := map[
    "ts" := "typescript", "tsx" := "tsx", "js" := "javascript", "jsx" := "jsx",
    "css" := "css", "html" := "markup", "json" := "json", "sh" := "bash",
    "bash" := "bash", "md" := "markdown", "yml" := "yaml", "yaml" := "yaml"]

  const DefaultLanguage := "javascript"

  /**
   * `getLanguageFromExtension` as evidently intended: the map's own entry for the
   * extension, else "javascript".
   */
  function LanguageOf(fileName: string): (r: string)
    ensures FileExtension(fileName) in LanguageMap ==> r == LanguageMap[FileExtension(fileName)]
    ensures FileExtension(fileName) !in LanguageMap ==> r == DefaultLanguage
  {
    var ext := FileExtension(fileName);
    if ext in LanguageMap then LanguageMap[ext] else DefaultLanguage
  }

  /** Every language the viewer can choose is a non-empty Prism language name. */
  lemma LanguageIsKnown(fileName: string)
    ensures LanguageOf(fileName) in {"typescript", "tsx", "javascript", "jsx", "css", "markup",
                                     "json", "bash", "markdown", "yaml"}
  {
  }

  /**
   * What `languageMap[ext]` evaluates to as written: `languageMap` is a plain
   * object literal, so a member inherited from Object.prototype answers too.
   */
  datatype Lookup = OwnEntry(language: string) | InheritedMember(key: string)

  /** The Object.prototype members whose names are their own lower-case form. */
  const InheritedLowerCaseMembers: set<string> := {"constructor", "__proto__"}

  function LanguageLookupAsWritten(fileName: string): (r: Lookup)
    ensures r.OwnEntry? ==> r.language == LanguageOf(fileName)
    ensures r.InheritedMember? <==> FileExtension(fileName) in InheritedLowerCaseMembers
  {
    var ext := FileExtension(fileName);
    if ext in LanguageMap then OwnEntry(LanguageMap[ext])
    else if ext in InheritedLowerCaseMembers then InheritedMember(ext)
    else OwnEntry(DefaultLanguage)
  }

  /** A file named "app.constructor" gets a function, not a language name, as its language. */
  lemma ConstructorExtensionIsNotALanguage()
    ensures LanguageLookupAsWritten("app.constructor") == InheritedMember("constructor")
  {
    ExtensionOfDottedName("app", "constructor");
    assert "app.constructor" == "app" + "." + "constructor";
    assert Lower("constructor") == "constructor";
  }

  /** `file.name.includes("/") ? file.name.split("/").pop() : file.name`. */
  function DisplayName(name: string): (n: string)
    ensures '/' !in n
    ensures '/' !in name ==> n == name
  {
    if '/' in name then Last(Split(name, '/')) else name
  }

  /** `name.includes("/") ? name.substring(0, name.lastIndexOf("/")) : "src"`. */
  function DirectoryLabel(name: string): (d: string)
    ensures '/' in name ==> |d| < |name| && d == name[..|d|] && name[|d|] == '/' && '/' !in name[|d| + 1..]
    ensures '/' !in name ==> d == "src"
  {
    if '/' in name then name[..LastIndexOf(name, '/')] else "src"
  }

  /** For a name with a "/", directory, "/" and display name put back together give the name. */
  lemma DirectoryAndDisplayNameSplitPath(name: string)
    requires '/' in name
    ensures DirectoryLabel(name) + "/" + DisplayName(name) == name
    ensures '/' !in DisplayName(name)
  {
    LastPieceAfterLastIndex(name, '/');
    var r := LastIndexOf(name, '/');
    assert name == name[..r] + [name[r]] + name[r + 1..];
  }

  /** `activeFile || files[0]?.name || ""`. */
  function InitialCurrentFile(files: seq<CodeFile>, activeFile: Option<string>): (r: string)
    ensures activeFile.Some? && activeFile.value != "" ==> r == activeFile.value
    ensures (activeFile.None? || activeFile.value == "") && |files| > 0 ==> r == files[0].name
    ensures (activeFile.None? || activeFile.value == "") && |files| == 0 ==> r == ""
  {
    if activeFile.Some? && activeFile.value != "" then activeFile.value
    else if |files| > 0 && files[0].name != "" then files[0].name
    else ""
  }

  /** `files.findIndex(f => f.name === name)`. */
  function FindIndex(files: seq<CodeFile>, name: string): (r: int)
    ensures -1 <= r < |files|
    ensures r >= 0 ==> files[r].name == name
    ensures r == -1 ==> forall j :: 0 <= j < |files| ==> files[j].name != name
    ensures r >= 0 ==> forall j :: 0 <= j < r ==> files[j].name != name
  {
    if files == [] then -1
    else if files[0].name == name then 0
    else
      var r := FindIndex(files[1..], name);
      if r == -1 then -1 else r + 1
  }

  /** `files.filter(f => f.name !== name)`. */
  function WithoutName(files: seq<CodeFile>, name: string): (r: seq<CodeFile>)
    ensures |r| <= |files|
    ensures forall i :: 0 <= i < |r| ==> r[i].name != name && r[i] in files
    ensures forall i :: 0 <= i < |files| && files[i].name != name ==> files[i] in r
  {
    if files == [] then []
    else (if files[0].name == name then [] else [files[0]]) + WithoutName(files[1..], name)
  }

  /** Before the first tab with `name`, filtering `name` out changes nothing. */
  lemma {:induction false} WithoutNameKeepsPrefix(files: seq<CodeFile>, name: string, k: nat)
    requires k <= |files|
    requires forall j :: 0 <= j < k ==> files[j].name != name
    ensures |WithoutName(files, name)| >= k
    ensures WithoutName(files, name)[..k] == files[..k]
  {
    if k > 0 {
      WithoutNameKeepsPrefix(files[1..], name, k - 1);
      assert files[..k] == [files[0]] + files[1..][..k - 1];
    }
  }

  /**
   * The `currentFile` after `handleFileRemove(closed)`: unchanged unless the
   * current tab is closed; then `remainingFiles[max(0, index - 1)]`, or "" when none remain.
   */
  function CurrentAfterClose(files: seq<CodeFile>, current: string, closed: string): (r: string)
    ensures closed != current ==> r == current
    ensures closed == current && WithoutName(files, closed) == [] ==> r == ""
    ensures closed == current && WithoutName(files, closed) != [] ==>
              r != closed && exists i :: 0 <= i < |files| && files[i].name == r
    ensures closed == current && FindIndex(files, closed) >= 1 ==>
              r == files[FindIndex(files, closed) - 1].name
    ensures closed == current && FindIndex(files, closed) <= 0 && WithoutName(files, closed) != [] ==>
              r == WithoutName(files, closed)[0].name
  {
    if closed != current then current
    else
      var remainingFiles := WithoutName(files, closed);
      if |remainingFiles| > 0 then
        var currentIndex := FindIndex(files, closed);
        var k := if currentIndex - 1 > 0 then currentIndex - 1 else 0;
        assert k < |remainingFiles| by {
          if currentIndex >= 1 {
            WithoutNameKeepsPrefix(files, closed, currentIndex);
          }
        }
        assert currentIndex >= 1 ==> remainingFiles[k] == files[currentIndex - 1] by {
          if currentIndex >= 1 {
            WithoutNameKeepsPrefix(files, closed, currentIndex);
            assert remainingFiles[..currentIndex][k] == files[..currentIndex][k];
          }
        }
        remainingFiles[k].name
      else ""
  }

  /**
   * Close buttons are only offered with more than one file; closing a file whose
   * name no other file shares then always leaves a tab to switch to.
   */
  lemma ClosingWithButtonsLeavesATab(files: seq<CodeFile>, i: nat)
    requires |files| > 1 && i < |files|
    requires forall j :: 0 <= j < |files| && j != i ==> files[j].name != files[i].name
    ensures WithoutName(files, files[i].name) != []
  {
    var j := if i == 0 then 1 else 0;
    assert files[j] in WithoutName(files, files[i].name);
  }

  /** The viewer's state: the files it is given and the name of the current tab. */
  class Viewer {
    const files: seq<CodeFile>
    var currentFile: string

    constructor (files: seq<CodeFile>, activeFile: Option<string>)
      ensures this.files == files
      ensures currentFile == InitialCurrentFile(files, activeFile)
    {
      this.files := files;
      currentFile := InitialCurrentFile(files, activeFile);
    }

    /** `files.find(file => file.name === currentFile)`. */
    function CurrentFileData(): (r: Option<CodeFile>)
      reads this
      ensures r.Some? <==> exists i :: 0 <= i < |files| && files[i].name == currentFile
      ensures r.Some? ==> r.value.name == currentFile && r.value in files
      // `find` answers with the first file that has the name
      ensures r.Some? ==> exists i :: 0 <= i < |files| && files[i] == r.value &&
                                      forall j :: 0 <= j < i ==> files[j].name != currentFile
    {
      var i := FindIndex(files, currentFile);
      if i >= 0 then Some(files[i]) else None
    }

    /** The highlighting language: that of the current file, "javascript" when none matches. */
    function PrismLanguage(): (r: string)
      reads this
      ensures CurrentFileData().None? ==> r == DefaultLanguage
      ensures CurrentFileData().Some? ==> r == LanguageOf(currentFile)
    {
      match CurrentFileData()
      case Some(f) => LanguageOf(f.name)
      case None => DefaultLanguage
    }

    /** Close buttons are rendered only when more than one file is shown. */
    function ShowsCloseButtons(): bool
      reads this
    {
      |files| > 1
    }

    /** The effect that follows the `activeFile` prop when it is set and differs. */
    method SyncActiveFile(activeFile: Option<string>)
      modifies this
      ensures activeFile.Some? && activeFile.value != "" ==> currentFile == activeFile.value
      ensures activeFile.None? || activeFile.value == "" ==> currentFile == old(currentFile)
    {
      if activeFile.Some? && activeFile.value != "" && activeFile.value != currentFile {
        currentFile := activeFile.value;
      }
    }

    /** `handleFileChange(name)`: select the tab and tell the parent (`onFileChange(name)`). */
    method HandleFileChange(name: string) returns (changedTo: string)
      modifies this
      ensures currentFile == name && changedTo == name
    {
      currentFile := name;
      changedTo := name;
    }

    /**
     * `handleFileRemove(name)`: choose the next current tab when the current one
     * closes, reporting it through `onFileChange`, then report the removal
     * through `onFileRemove(name)`.
     */
    method HandleFileRemove(name: string) returns (changedTo: Option<string>, removed: string)
      modifies this
      ensures currentFile == CurrentAfterClose(files, old(currentFile), name)
      ensures changedTo.Some? <==> name == old(currentFile) && WithoutName(files, name) != []
      ensures changedTo.Some? ==> changedTo.value == currentFile
      ensures removed == name
    {
      changedTo := None;
      if name == currentFile {
        var remainingFiles := WithoutName(files, name);
        if |remainingFiles| > 0 {
          var next := CurrentAfterClose(files, currentFile, name);
          currentFile := next;
          changedTo := Some(next);
        } else {
          currentFile := "";
        }
      }
      removed := name;
    }
  }
}
