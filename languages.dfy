/** The language registry of the code sandbox (`languages/types.go`): the
    three language tags in their fixed order and the configuration of
    each: image, manifest files in probe order, install and run commands,
    and the source file extension. */
module Languages {
  import Strs

  /** A language tag is any string; only three of them are supported. */
  type Language = string

  const Python: Language := "python"
  const Go: Language := "go"
  const NodeJS: Language := "nodejs"

  const AllLanguages: seq<Language> := [Python, Go, NodeJS]

  datatype LanguageConfig = LanguageConfig(
    image: string,
    dependencyFiles: seq<string>,
    installCommand: seq<string>,
    runCommand: seq<string>,
    fileExtension: string)

  /** The configuration Go's map index yields for a missing key. */
  const ZeroConfig: LanguageConfig := LanguageConfig("", [], [], [], "")

  const SupportedLanguages: map<Language, LanguageConfig> := map[
    Python := LanguageConfig("ghcr.io/astral-sh/uv:debian-slim",
                             ["requirements.txt", "pyproject.toml", "setup.py"],
                             ["pip", "install", "-r", "requirements.txt"],
                             ["uvx", "run", "main.py"], "py"),
    Go := LanguageConfig("docker.io/library/golang:1.23.6-bookworm",
                         ["go.mod"],
                         ["go", "mod", "tidy"],
                         ["go", "run", "main.go"], "go"),
    NodeJS := LanguageConfig("oven/bun:debian",
                             ["package.json"],
                             ["npm", "install"],
                             ["bun", "run", "main.ts"], "ts")]

  /** `SupportedLanguages[l]`: the configuration of `l`, or the zero
      configuration for a tag that is not in the table. */
  function ConfigOf(l: Language): (c: LanguageConfig)
    ensures l in SupportedLanguages ==> c == SupportedLanguages[l]
    ensures l !in SupportedLanguages ==> c == ZeroConfig
  {
    if l in SupportedLanguages then SupportedLanguages[l] else ZeroConfig
  }

  /** `Language.String`: the tag's own text. */
  function String(l: Language): (s: string)
    ensures |s| == |l| && forall i :: 0 <= i < |l| ==> s[i] == l[i]
  {
    l
  }

  /** `Language.IsValid`: a linear search of `AllLanguages`. */
  method IsValid(l: Language) returns (valid: bool)
    ensures valid <==> l in AllLanguages
  {
    var i := 0;
    while i < |AllLanguages|
      invariant 0 <= i <= |AllLanguages|
      invariant l !in AllLanguages[..i]
    {
      if l == AllLanguages[i] {
        return true;
      }
      assert AllLanguages[..i + 1] == AllLanguages[..i] + [AllLanguages[i]];
      i := i + 1;
    }
    assert AllLanguages[..i] == AllLanguages;
    return false;
  }

  /** `LanguageList.ToArray`: a fresh array holding the tags' strings, in
      order. */
  method ToArray(list: seq<Language>) returns (result: array<string>)
    ensures result.Length == |list|
    ensures forall i :: 0 <= i < |list| ==> result[i] == String(list[i])
  {
    result := new string[|list|];
    var i := 0;
    while i < |list|
      invariant 0 <= i <= |list|
      invariant forall j :: 0 <= j < i ==> result[j] == String(list[j])
    {
      result[i] := String(list[i]);
      i := i + 1;
    }
  }

  /** The valid tags are exactly the configured ones, so a valid tag never
      looks up the zero configuration. */
  lemma ValidIffConfigured(l: Language)
    ensures l in AllLanguages <==> l in SupportedLanguages
    ensures l in AllLanguages <==> ConfigOf(l) != ZeroConfig
  {
  }

  /** The three tags are distinct, so `AllLanguages` lists each once. */
  lemma AllLanguagesDistinct()
    ensures |AllLanguages| == 3
    ensures forall i, j :: 0 <= i < j < |AllLanguages| ==> AllLanguages[i] != AllLanguages[j]
  {
  }

  /** Every run command ends with the program file `main.<ext>` of its own
      language. */
  lemma RunCommandNamesMain(l: Language)
    requires l in AllLanguages
    ensures var c := ConfigOf(l);
      |c.runCommand| > 0 && c.runCommand[|c.runCommand| - 1] == "main." + c.fileExtension
  {
  }

  /** The manifest probe order of each language. */
  lemma DependencyFileOrder()
    ensures ConfigOf(Python).dependencyFiles == ["requirements.txt", "pyproject.toml", "setup.py"]
    ensures ConfigOf(Go).dependencyFiles == ["go.mod"]
    ensures ConfigOf(NodeJS).dependencyFiles == ["package.json"]
  {
  }
}
