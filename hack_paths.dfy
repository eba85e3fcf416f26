/**
 * Where hack data lives: `<cwd>/.autohack/datastorage/<clientID>` for a client's
 * folder, and `<cwd>/.autohack/datastorage/<template with "$(id)" replaced>` for the
 * file of one saved mismatch. Paths are joined as `pathlib` joins them, so a template
 * that starts at the root replaces the storage folder.
 */
module HackPaths {
  import opened Text
  import opened Decimal

  const PLACEHOLDER: string := "$(id)"

  /** `pathlib.Path(os.getcwd()) / ".autohack" / "datastorage"`. */
  function StorageRoot(cwd: string): string {
    JoinPath(JoinPath(cwd, ".autohack"), "datastorage")
  }

  /**
   * `getHackDataStorageFolderPath(clientID)`. The ids the websocket route
   * `/ws/{client_id}` delivers are one path segment, so never absolute.
   */
  function HackDataStorageFolderPath(cwd: string, clientID: string): (p: string)
    ensures !IsAbsolute(clientID) ==> StartsWith(p, StorageRoot(cwd) + "/") && p[|StorageRoot(cwd)| + 1..] == clientID
    ensures IsAbsolute(clientID) ==> p == clientID
  {
    JoinPath(StorageRoot(cwd), clientID)
  }

  /** The template after substitution: every "$(id)" replaced by `str(dataID)`. */
  function Substitute(dataID: int, template: string): string {
    ReplaceAll(template, PLACEHOLDER, IntToString(dataID))
  }

  /** Substitution never makes a path absolute or relative: "$(id)" and `str(dataID)` never start with '/'. */
  lemma SubstituteKeepsAbsolute(dataID: int, template: string)
    ensures IsAbsolute(Substitute(dataID, template)) <==> IsAbsolute(template)
  {
    if template != [] && StartsWith(template, PLACEHOLDER) {
      IntToStringChars(dataID, 0);
      assert Substitute(dataID, template)[0] == IntToString(dataID)[0];
    }
  }

  /** `getHackDataFilePath(dataID, filePath)`. */
  function HackDataFilePath(cwd: string, dataID: int, template: string): (p: string)
    ensures !IsAbsolute(template) ==>
      StartsWith(p, StorageRoot(cwd) + "/") && p[|StorageRoot(cwd)| + 1..] == Substitute(dataID, template)
    ensures IsAbsolute(template) ==> p == Substitute(dataID, template)
  {
    SubstituteKeepsAbsolute(dataID, template);
    JoinPath(StorageRoot(cwd), Substitute(dataID, template))
  }

  /** A template starting at the root leaves the storage folder: "/$(id)" gives "/1" for data 1, whatever the working folder. */
  lemma AbsoluteTemplateExample(cwd: string)
    ensures HackDataFilePath(cwd, 1, "/$(id)") == "/1"
  {
    var t := "/$(id)";
    assert IntToString(1) == "1";
    assert t[1..] == PLACEHOLDER && PLACEHOLDER[|PLACEHOLDER|..] == [];
    assert ReplaceAll(t[1..], PLACEHOLDER, "1") == "1";
    assert t[0] != PLACEHOLDER[0];
  }

  /** Two clients never share a storage folder, for ids that are both relative (as the route's are) or both absolute. */
  lemma StorageFoldersDistinct(cwd: string, c1: string, c2: string)
    requires c1 != c2 && IsAbsolute(c1) == IsAbsolute(c2)
    ensures HackDataStorageFolderPath(cwd, c1) != HackDataStorageFolderPath(cwd, c2)
  {
  }

  /** A template without the placeholder is joined to the storage root as it is. */
  lemma TemplateWithoutPlaceholder(cwd: string, dataID: int, template: string)
    requires !Occurs(template, PLACEHOLDER)
    ensures HackDataFilePath(cwd, dataID, template) == JoinPath(StorageRoot(cwd), template)
  {
    ReplaceAbsent(template, PLACEHOLDER, IntToString(dataID));
  }

  /** The decimal form of an integer shares no character with the placeholder. */
  lemma DecimalAvoidsPlaceholder(dataID: int)
    ensures forall c :: c in IntToString(dataID) ==> c !in PLACEHOLDER
  {
    var s := IntToString(dataID);
    forall c | c in s ensures c !in PLACEHOLDER {
      var k :| 0 <= k < |s| && s[k] == c;
      IntToStringChars(dataID, k);
    }
  }

  /** No "$(id)" is left after substitution: digits and '-' cannot form it again. */
  lemma NoPlaceholderLeft(dataID: int, template: string)
    ensures !Occurs(Substitute(dataID, template), PLACEHOLDER)
  {
    DecimalAvoidsPlaceholder(dataID);
    ReplaceLeavesNone(template, PLACEHOLDER, IntToString(dataID));
  }

  /** Each occurrence of the placeholder is replaced, so the length grows by the digits written. */
  lemma SubstitutedLength(dataID: int, template: string)
    ensures |Substitute(dataID, template)|
         == |template| + Count(template, PLACEHOLDER) * (|IntToString(dataID)| - |PLACEHOLDER|)
  {
    ReplaceLength(template, PLACEHOLDER, IntToString(dataID));
  }

  /** For a template that names the id, distinct ids give distinct files: mismatches never collide. */
  lemma DataFilePathInjective(cwd: string, i: int, j: int, template: string)
    requires Occurs(template, PLACEHOLDER)
    requires HackDataFilePath(cwd, i, template) == HackDataFilePath(cwd, j, template)
    ensures i == j
  {
    if !IsAbsolute(template) {
      var root := StorageRoot(cwd) + "/";
      assert HackDataFilePath(cwd, i, template)[|root|..] == Substitute(i, template);
      assert HackDataFilePath(cwd, j, template)[|root|..] == Substitute(j, template);
    }
    ReplaceInjective(template, PLACEHOLDER, IntToString(i), IntToString(j));
    IntToStringInjective(i, j);
  }
}
