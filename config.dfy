/** The agent's fixed configuration: the allowed roots, and the registries
    of launchable apps, openable URLs and projects, with the JavaScript
    property lookup the handlers use on them. */
module Config {
  import opened Text
  import opened Json
  import opened Sandbox
  import opened Guards

  /** `ALLOWED_ROOTS`, resolved once at start with the user's name. */
  function AllowedRoots(cwd: AbsPath, username: string): (r: seq<AbsPath>)
    requires WellFormed(cwd)
    ensures |r| == 3
  {
    [ Resolve(cwd, "C:\\Projects"),
      Resolve(cwd, UserFolder(username, "Documents")),
      Resolve(cwd, UserFolder(username, "Desktop")) ]
  }

  /** `C:\\Users\\${username}\\${tail}` */
  function UserFolder(username: string, tail: string): string
  {
    "C:\\Users\\" + username + "\\" + tail
  }

  /** Each configured root is a drive folder whatever the user's name is:
      "C:\\Projects", and "C:\\Users\\<name>\\Documents" and
      "...\\Desktop" resolved (a name holding ".." or separators moves the
      root, but it stays a folder on drive C). */
  lemma AllowedRootsAreFolders(cwd: AbsPath, username: string)
    requires WellFormed(cwd)
    ensures forall k :: 0 <= k < 3 ==> IsFolderRoot(AllowedRoots(cwd, username)[k])
    ensures AllowedRoots(cwd, username)[0] == AbsPath(Drive("C:"), ["Projects"])
    ensures forall k :: 0 <= k < 3 ==> AllowedRoots(cwd, username)[k].device == Drive("C:")
  {
    ProjectsRootIsFolder(cwd, username);
    UserRootIsFolder(cwd, username, 1);
    UserRootIsFolder(cwd, username, 2);
    var r := AllowedRoots(cwd, username);
    forall k | 0 <= k < 3 ensures IsFolderRoot(r[k]) && r[k].device == Drive("C:") {
      if k == 0 { } else if k == 1 { } else { }
    }
  }

  lemma ProjectsRootIsFolder(cwd: AbsPath, username: string)
    requires WellFormed(cwd)
    ensures AllowedRoots(cwd, username)[0] == AbsPath(Drive("C:"), ["Projects"])
    ensures IsFolderRoot(AllowedRoots(cwd, username)[0])
  {
    ProjectsRoot(cwd);
  }

  lemma UserRootIsFolder(cwd: AbsPath, username: string, k: int)
    requires WellFormed(cwd) && 1 <= k < 3
    ensures IsFolderRoot(AllowedRoots(cwd, username)[k])
    ensures AllowedRoots(cwd, username)[k].device == Drive("C:")
  {
    if k == 1 { UserRoot(cwd, username, "Documents"); } else { UserRoot(cwd, username, "Desktop"); }
  }

  lemma ProjectsRoot(cwd: AbsPath)
    requires WellFormed(cwd)
    ensures Resolve(cwd, "C:\\Projects") == AbsPath(Drive("C:"), ["Projects"])
  {
    ProjectsRootPieces(cwd);
    ProjectsWord();
  }

  lemma ProjectsRootPieces(cwd: AbsPath)
    requires WellFormed(cwd)
    ensures Resolve(cwd, "C:\\Projects") == AbsPath(Drive("C:"), Normalize([], Pieces("Projects")))
  {
    var raw := "C:\\Projects";
    assert raw[..2] == "C:" && raw[2] == '\\' && raw[3..] == "Projects";
    ResolveDriveAbsolute(cwd, raw);
  }

  lemma ProjectsWord()
    ensures Normalize([], Pieces("Projects")) == ["Projects"]
  {
    PiecesWord("Projects");
    assert Normalize([], ["Projects"]) == ["Projects"];
  }

  lemma UserRoot(cwd: AbsPath, username: string, tail: string)
    requires WellFormed(cwd)
    requires ValidName(tail) && IsUpperAsciiInitial(tail)
    ensures var r := Resolve(cwd, UserFolder(username, tail));
            r.device == Drive("C:") && |r.names| >= 1 && r.names[|r.names| - 1] == tail
  {
    var raw := UserFolder(username, tail);
    var x := "Users\\" + username;
    assert raw[..2] == "C:" && raw[2] == '\\';
    assert raw[3..] == x + "\\" + tail;
    ResolveDriveAbsolute(cwd, raw);
    PiecesAppend(x, tail);
    PiecesWord(tail);
    NormalizeAppend([], Pieces(x), tail);
  }

  predicate IsUpperAsciiInitial(t: string)
  {
    |t| >= 1 && 'A' <= t[0] <= 'Z'
  }


  // ---------------------------------------------------------------------
  // Registries
  // ---------------------------------------------------------------------

  /** How an app is launched: a command found on the PATH, or the first of
      several absolute candidates that exists. */
  datatype AppSpec = Exe(command: string) | PathCandidates(candidates: seq<string>)

  /** `APPS` */
  const Apps: map<string, AppSpec> := map[
    "notepad" := Exe("notepad.exe"),
    "calc" := Exe("calc.exe"),
    "vscode" := Exe("code"),
    "chrome" := PathCandidates([
      "C:\\Program Files\\Google\\Chrome\\Application\\chrome.exe",
      "C:\\Program Files (x86)\\Google\\Chrome\\Application\\chrome.exe"]),
    "word" := PathCandidates([
      "C:\\Program Files\\Microsoft Office\\root\\Office16\\WINWORD.EXE",
      "C:\\Program Files (x86)\\Microsoft Office\\root\\Office16\\WINWORD.EXE"]),
    "outlook" := PathCandidates([
      "C:\\Program Files\\Microsoft Office\\root\\Office16\\OUTLOOK.EXE",
      "C:\\Program Files (x86)\\Microsoft Office\\root\\Office16\\OUTLOOK.EXE"])
  ]

  /** `URLS` */
  const Urls: map<string, string> := map[
    "gmail" := "https://mail.google.com/mail/u/0/#inbox",
    "calendar" := "https://calendar.google.com/calendar/u/0/r",
    "linkedin" := "https://www.linkedin.com/feed/",
    "github" := "https://github.com/"
  ]

  datatype Project = Project(folder: string, openInVscode: bool, openInExplorer: bool)

  /** `PROJECTS` */
  const Projects: map<string, Project> := map[
    "chotu" := Project("C:\\Projects\\Chottu AI Assistant", true, true),
    "careerflow" := Project("C:\\Projects\\job-search-agent", true, false)
  ]

  /** What `table[id]` gives on a plain object literal: an own entry, or
      `undefined`. This is the lookup the handlers are meant to make; see
      `LookupAsWritten` for what the source's `table[id]` really does. */
  function Lookup<T>(table: map<string, T>, id: string): (r: Option<T>)
    ensures r.Some? <==> id in table
    ensures r.Some? ==> r.value == table[id]
  {
    if id in table then Some(table[id]) else None
  }

  /** A lowercased id reaches an own entry, one of the two `Object.prototype`
      members whose names are all lower case, or nothing. */
  datatype Found<T> = Own(value: T) | Inherited(name: string) | Missing

  predicate IsInheritedName(id: string)
  {
    id == "constructor" || id == "__proto__"
  }

  /** `table[id]` as the source writes it, on an object that inherits from
      `Object.prototype`. Both inherited members are truthy. */
  function LookupAsWritten<T>(table: map<string, T>, id: string): Found<T>
  {
    if id in table then Own(table[id])
    else if IsInheritedName(id) then Inherited(id)
    else Missing
  }

  /** `String(member)` for an inherited member: the `Object` constructor
      prints as its source text, `Object.prototype` as an object. */
  function InheritedText(name: string): (t: string)
    requires IsInheritedName(name)
    ensures !HasHttpScheme(t)
  {
    var t := if name == "constructor" then "function Object() { [native code] }" else "[object Object]";
    assert t[..4][0] == t[0] && t[..5][0] == t[0] && FoldAscii(t[0]) != 'h';
    t
  }

  /** Which program the agent runs: the handlers as the source writes them,
      or with two defects corrected, that is own-key registry lookups and an
      audit entry whose caller-supplied texts are written as JSON. */
  datatype Build = AsWritten | Corrected

  /** The registry lookup a build performs. */
  function Fetch<T>(b: Build, table: map<string, T>, id: string): (r: Found<T>)
    ensures r.Own? <==> id in table
    ensures r.Own? ==> r.value == table[id]
    ensures r.Inherited? <==> b == AsWritten && id !in table && IsInheritedName(id)
    ensures r.Inherited? ==> r.name == id
  {
    if b == AsWritten then LookupAsWritten(table, id)
    else match Lookup(table, id)
      case Some(x) => Own(x)
      case None => Missing
  }

  /** The tables register no inherited name, so the two lookups part ways
      exactly on "constructor" and "__proto__". */
  lemma LookupsAgreeOnRegisteredNames<T>(table: map<string, T>, id: string)
    requires !IsInheritedName(id)
    ensures LookupAsWritten(table, id).Own? <==> Lookup(table, id).Some?
    ensures LookupAsWritten(table, id).Own? ==> LookupAsWritten(table, id).value == Lookup(table, id).value
  {
  }

  /** A caller-supplied "constructor" passes every `if (!spec)` guard of the
      source even though no table registers it. */
  lemma InheritedNameFound()
    ensures LookupAsWritten(Urls, "constructor") == Inherited("constructor") && Lookup(Urls, "constructor").None?
    ensures LookupAsWritten(Apps, "constructor") == Inherited("constructor") && Lookup(Apps, "constructor").None?
    ensures LookupAsWritten(Projects, "__proto__") == Inherited("__proto__") && Lookup(Projects, "__proto__").None?
  {
    assert "constructor" !in Urls && "constructor" !in Apps && "__proto__" !in Projects;
  }

  /** Every registered URL passes `validateUrl`'s scheme test. */
  lemma UrlsAreWeb(id: string)
    requires id in Urls
    ensures HasHttpScheme(Urls[id])
  {
    var u := Urls[id];
    assert id == "gmail" || id == "calendar" || id == "linkedin" || id == "github";
    assert u[0] == 'h' && u[1] == 't' && u[2] == 't' && u[3] == 'p' && u[4] == 's';
    assert u[5] == ':' && u[6] == '/' && u[7] == '/';
    HttpsByLetters(u);
  }

  lemma HttpsByLetters(u: string)
    requires |u| >= 8 && u[0] == 'h' && u[1] == 't' && u[2] == 't' && u[3] == 'p' && u[4] == 's'
    requires u[5] == ':' && u[6] == '/' && u[7] == '/'
    ensures HasHttpScheme(u)
  {
    assert u[..5] == "https";
    assert u[5..8] == "://";
  }

  // ---------------------------------------------------------------------
  // findFirstExisting
  // ---------------------------------------------------------------------

  /** The first of `paths` that `existing` holds. */
  function FirstExisting(paths: seq<string>, existing: set<string>): (r: Option<string>)
    ensures r.Some? ==> r.value in paths && r.value in existing
    ensures r.None? <==> forall i :: 0 <= i < |paths| ==> paths[i] !in existing
  {
    if |paths| == 0 then None
    else if paths[0] in existing then Some(paths[0])
    else FirstExisting(paths[1..], existing)
  }

  /** What `FirstExisting` finds is the first candidate that exists: every
      candidate before it is missing. */
  lemma {:induction false} FirstExistingIsFirst(paths: seq<string>, existing: set<string>)
    ensures var r := FirstExisting(paths, existing);
            r.Some? ==> exists i :: 0 <= i < |paths| && paths[i] == r.value
                                    && forall j :: 0 <= j < i ==> paths[j] !in existing
  {
    if |paths| > 0 && paths[0] !in existing {
      FirstExistingIsFirst(paths[1..], existing);
      var r := FirstExisting(paths[1..], existing);
      if r.Some? {
        var i :| 0 <= i < |paths[1..]| && paths[1..][i] == r.value
                 && forall j :: 0 <= j < i ==> paths[1..][j] !in existing;
        assert paths[i + 1] == r.value;
        assert forall j :: 0 <= j < i + 1 ==> paths[j] !in existing by {
          forall j | 0 <= j < i + 1 ensures paths[j] !in existing {
            if j > 0 { assert paths[j] == paths[1..][j - 1]; }
          }
        }
      }
    }
  }

  /** `findFirstExisting`: the candidates are tried in order. */
  method FindFirstExisting(paths: seq<string>, existing: set<string>) returns (r: Option<string>)
    ensures r == FirstExisting(paths, existing)
    ensures r.Some? ==> exists i :: 0 <= i < |paths| && paths[i] == r.value
                                    && forall j :: 0 <= j < i ==> paths[j] !in existing
  {
    var i := 0;
    while i < |paths|
      invariant 0 <= i <= |paths|
      invariant forall j :: 0 <= j < i ==> paths[j] !in existing
      invariant FirstExisting(paths, existing) == FirstExisting(paths[i..], existing)
    {
      if paths[i] in existing {
        return Some(paths[i]);
      }
      assert paths[i..][1..] == paths[i + 1..];
      i := i + 1;
    }
    return None;
  }

  // ---------------------------------------------------------------------
  // Both projects lie inside the allowed roots.
  // ---------------------------------------------------------------------

  lemma ProjectFolderResolves(cwd: AbsPath, id: string)
    requires WellFormed(cwd) && id in Projects
    ensures Resolve(cwd, Projects[id].folder)
            == AbsPath(Drive("C:"), ["Projects", if id == "chotu" then "Chottu AI Assistant" else "job-search-agent"])
  {
    if id == "chotu" {
      ChotuText();
      ResolvesTo(cwd, ["Projects", "Chottu AI Assistant"], Projects[id].folder, ["Projects", "Chottu AI Assistant"]);
    } else {
      CareerflowText();
      ResolvesTo(cwd, ["Projects", "job-search-agent"], Projects[id].folder, ["Projects", "job-search-agent"]);
    }
  }

  /** A registered folder text is already in resolved form: the sandbox
      passes on this very text. */
  lemma ProjectFolderRenders(cwd: AbsPath, id: string)
    requires WellFormed(cwd) && id in Projects
    ensures Render(Resolve(cwd, Projects[id].folder)) == Projects[id].folder
  {
    ProjectFolderResolves(cwd, id);
    if id == "chotu" {
      ChotuRenders();
    } else {
      CareerflowRenders();
    }
  }

  lemma ChotuRenders()
    ensures Render(AbsPath(Drive("C:"), ["Projects", "Chottu AI Assistant"])) == "C:\\Projects\\Chottu AI Assistant"
  {
    RenderTwo("Projects", "Chottu AI Assistant");
    assert "C:\\" + "Projects" + "\\" + "Chottu AI Assistant" == "C:\\Projects\\Chottu AI Assistant";
  }

  lemma CareerflowRenders()
    ensures Render(AbsPath(Drive("C:"), ["Projects", "job-search-agent"])) == "C:\\Projects\\job-search-agent"
  {
    RenderTwo("Projects", "job-search-agent");
    assert "C:\\" + "Projects" + "\\" + "job-search-agent" == "C:\\Projects\\job-search-agent";
  }

  lemma RenderTwo(a: string, b: string)
    ensures Render(AbsPath(Drive("C:"), [a, b])) == "C:\\" + a + "\\" + b
  {
    assert [a, b][1..] == [b];
    assert Join([a, b], Sep) == a + [Sep] + b;
  }

  lemma ChotuText()
    ensures SpellsOut(["Projects", "Chottu AI Assistant"], "C:\\Projects\\Chottu AI Assistant", ["Projects", "Chottu AI Assistant"])
  {
    SpellsOutTwo("Projects", "Chottu AI Assistant");
    assert "C:\\" + "Projects" + "\\" + "Chottu AI Assistant" == "C:\\Projects\\Chottu AI Assistant";
  }

  lemma CareerflowText()
    ensures SpellsOut(["Projects", "job-search-agent"], "C:\\Projects\\job-search-agent", ["Projects", "job-search-agent"])
  {
    SpellsOutTwo("Projects", "job-search-agent");
    assert "C:\\" + "Projects" + "\\" + "job-search-agent" == "C:\\Projects\\job-search-agent";
  }

  /** Whatever the working directory and the user's name, the sandbox
      admits every registered project folder, resolved under
      "C:\\Projects". */
  lemma ProjectsAdmitted(cwd: AbsPath, username: string, id: string)
    requires WellFormed(cwd) && id in Projects
    ensures var r := ResolveAllowedPath(cwd, AllowedRoots(cwd, username), Some(Str(Projects[id].folder)));
            r.Ok? && r.value.device == Drive("C:") && |r.value.names| == 2 && r.value.names[0] == "Projects"
  {
    var roots := AllowedRoots(cwd, username);
    AllowedRootsAreFolders(cwd, username);
    ProjectFolderResolves(cwd, id);
    var full := Resolve(cwd, Projects[id].folder);
    assert InsideRoot(roots[0], full) by { assert full.names[..1] == ["Projects"]; }
    ResolveAllowedPathSound(cwd, roots, Some(Str(Projects[id].folder)));
  }
}
