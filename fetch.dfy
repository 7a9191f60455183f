/// subcommands/pkg/fetch.go: finding the recipe a package is built from.
///
/// A recipe is named by a URL, a local path or a bare name. A bare name is
/// rewritten into the name of a recipe file and treated as remote. Fetching
/// remote recipes is disabled in the program: for every URL and every bare
/// name `getRecipe` is left with a nil reader and no error, and deferring
/// `Close` on that nil reader (fetch.go:51) panics, so it never returns.
/// `NoReader` and its message are this model's stand-in for that crash.
/// Only local paths are opened; the file system and the recipe parser are
/// a function from path to what opening and parsing it yields.
module PkgFetch {
  import opened Wrappers
  import opened Paths

  /// `isRemote`: an http or https URL.
  predicate IsRemote(name: string) {
    HasPrefix(name, "https://") || HasPrefix(name, "http://")
  }

  /// `isBase`: not absolute and free of separators.
  predicate IsBase(name: string) {
    !IsAbs(name) && Sep !in name
  }

  /// What a recipe declares.
  datatype Recipe = Recipe(name: string, version: string, repository: string)

  /// What `os.Open` and then `Recipe.Parse` yield for a path.
  datatype RecipeFile = OpenFailed(reason: string) | ParseFailed(reason: string) | Parsed(recipe: Recipe)

  datatype RecipeError =
    | CantOpen(name: string, reason: string)
    | BadRecipe(reason: string)
    | NoReader(location: string)

  function RecipeMessage(e: RecipeError): string {
    match e
    case CantOpen(name, reason) => "can't open " + name + ": " + reason
    case BadRecipe(reason) => reason
    case NoReader(location) => "no reader for " + location
  }

  /// The location `getRecipe` reads a recipe from, and whether it is
  /// remote. A bare name is joined onto an empty path and gets ".yaml"
  /// appended unless it starts with ".yaml".
  function Locate(name: string): (string, bool) {
    if !IsRemote(name) && IsBase(name) then
      var p := Join(["", name]);
      (if HasPrefix(name, ".yaml") then p else p + ".yaml", true)
    else (name, IsRemote(name))
  }

  /// `getRecipe`: a remote location ends in `NoReader`, standing for the
  /// program's panic on the nil reader; a local one is opened and parsed,
  /// and an open failure names the recipe as given.
  function GetRecipeSpec(name: string, files: string -> RecipeFile): Result<Recipe, RecipeError> {
    var (fullpath, remote) := Locate(name);
    if remote then Err(NoReader(fullpath))
    else
      match files(fullpath)
      case OpenFailed(reason) => Err(CantOpen(name, reason))
      case ParseFailed(reason) => Err(BadRecipe(reason))
      case Parsed(r) => Ok(r)
  }

  method GetRecipe(name: string, files: string -> RecipeFile) returns (r: Result<Recipe, RecipeError>)
    ensures r == GetRecipeSpec(name, files)
  {
    var fullpath := name;
    var remote := IsRemote(fullpath);
    if !remote && IsBase(fullpath) {
      var path := Join(["", fullpath]);
      if !HasPrefix(name, ".yaml") {
        path := path + ".yaml";
      }
      fullpath := path;
      remote := true;
    }
    if remote {
      return Err(NoReader(fullpath));
    }
    var file := files(fullpath);
    if file.OpenFailed? {
      return Err(CantOpen(name, file.reason));
    }
    if file.ParseFailed? {
      return Err(BadRecipe(file.reason));
    }
    return Ok(file.recipe);
  }

  /// URLs and bare names are never opened: neither yields a reader, and
  /// both end in `NoReader`, where the program panics.
  lemma {:induction false} RemoteNeverOpened(name: string, files: string -> RecipeFile)
    requires IsRemote(name) || IsBase(name)
    ensures GetRecipeSpec(name, files).Err? && GetRecipeSpec(name, files).error.NoReader?
    ensures IsRemote(name) ==> GetRecipeSpec(name, files) == Err(NoReader(name))
  {
  }

  /// Any other name is a local path, opened as given: the recipe is read
  /// exactly when the file opens and parses, and an open failure names it.
  lemma {:induction false} LocalOpened(name: string, files: string -> RecipeFile)
    requires !IsRemote(name) && !IsBase(name)
    ensures GetRecipeSpec(name, files).Ok? <==> files(name).Parsed?
    ensures files(name).Parsed? ==> GetRecipeSpec(name, files) == Ok(files(name).recipe)
    ensures files(name).OpenFailed? ==> GetRecipeSpec(name, files) == Err(CantOpen(name, files(name).reason))
  {
  }

  /// A bare name that is a plain path component becomes that name with
  /// ".yaml" appended, unless it starts with ".yaml".
  lemma {:induction false} BaseNameLocation(name: string)
    requires CanonElem(name)
    ensures !IsRemote(name) && IsBase(name)
    ensures Locate(name) == (if HasPrefix(name, ".yaml") then name else name + ".yaml", true)
  {
    UrlHasSep(name);
    CleanComponent(name);
  }

  /// Every URL holds a '/' ("//" follows the scheme).
  lemma UrlHasSep(name: string)
    ensures IsRemote(name) ==> Sep in name
  {
    if HasPrefix(name, "https://") {
      assert name[..8][6] == name[6];
    } else if HasPrefix(name, "http://") {
      assert name[..7][5] == name[5];
    }
  }

  /// The suffix test is a prefix test: a name already ending in ".yaml"
  /// gets a second ".yaml".
  lemma {:induction false} YamlSuffixDoubled(name: string)
    requires CanonElem(name) && HasSuffix(name, ".yaml") && !HasPrefix(name, ".yaml")
    ensures Locate(name).0 == name + ".yaml" && HasSuffix(Locate(name).0, ".yaml.yaml")
  {
    BaseNameLocation(name);
    var f := name + ".yaml";
    var n := |name|;
    assert f[n - 5..n] == name[n - 5..] && f[n..] == ".yaml";
    assert f[|f| - 10..] == f[n - 5..n] + f[n..];
  }
}
