/** Container reference, platform and instance naming (pkg/cli/cc/container.go).
    The environment is a parameter; the semantic-version default of the tag, which
    depends on build information, is the parameter `versionTag`. */
module Containers {

  import opened Strs
  import opened Client

  const DefaultContainerRegistry := "ghcr.io/aserto-dev"
  const DefaultContainerImage := "topaz"
  const DefaultContainerName := "topaz"

  /** The "%s/%s:%s" reference format. */
  function Reference(registry: string, image: string, tag: string): string {
    registry + "/" + image + ":" + tag
  }

  /** Reads a reference back: the registry is everything before the last '/', the image
      runs from there to the next ':', and the tag is the rest. */
  function ParseReference(ref: string): (parts: (string, string, string)) {
    var i := LastIndexOf(ref, '/');
    if i < 0 then ("", "", "")
    else
      var rest := ref[i + 1..];
      var image := BeforeFirst(rest, ':');
      (ref[..i], image, if |image| < |rest| then rest[|image| + 1..] else "")
  }

  lemma BeforeFirstOfJoined(a: string, c: char, b: string)
    requires c !in a
    ensures BeforeFirst(a + [c] + b, c) == a
  {
    if a != [] {
      assert (a + [c] + b)[1..] == a[1..] + [c] + b;
      BeforeFirstOfJoined(a[1..], c, b);
    }
  }

  /** The reference format is unambiguous: the registry, image and tag it was built from
      are recovered, as long as the image and the tag hold no '/' and the image no ':'
      (the registry may hold both, as in "host:5000/org"). */
  lemma {:induction false} ReferenceRoundTrip(registry: string, image: string, tag: string)
    requires '/' !in image && '/' !in tag && ':' !in image
    ensures ParseReference(Reference(registry, image, tag)) == (registry, image, tag)
  {
    var ref := Reference(registry, image, tag);
    assert ref[|registry| + 1..] == image + ":" + tag;
    assert '/' !in ref[|registry| + 1..];
    LastSlashAt(ref, |registry|);
    assert ref[..|registry|] == registry;
    BeforeFirstOfJoined(image, ':', tag);
    assert image + ":" + tag == image + [':'] + tag;
  }

  function ContainerRegistry(env: Env): (r: string)
    ensures r != ""
    ensures Getenv(env, "CONTAINER_REGISTRY") != "" ==> r == Getenv(env, "CONTAINER_REGISTRY")
    ensures Getenv(env, "CONTAINER_REGISTRY") == "" ==> r == "ghcr.io/aserto-dev"
  {
    EnvOr(env, "CONTAINER_REGISTRY", DefaultContainerRegistry)
  }

  function ContainerImage(env: Env): (r: string)
    ensures r != ""
    ensures Getenv(env, "CONTAINER_IMAGE") != "" ==> r == Getenv(env, "CONTAINER_IMAGE")
    ensures Getenv(env, "CONTAINER_IMAGE") == "" ==> r == "topaz"
  {
    EnvOr(env, "CONTAINER_IMAGE", DefaultContainerImage)
  }

  /** Only the environment branch is modelled: `versionTag` stands for the
      semantic-version default. */
  function ContainerTag(env: Env, versionTag: string): (r: string)
    ensures Getenv(env, "CONTAINER_TAG") != "" ==> r == Getenv(env, "CONTAINER_TAG")
    ensures Getenv(env, "CONTAINER_TAG") == "" ==> r == versionTag
  {
    EnvOr(env, "CONTAINER_TAG", versionTag)
  }

  /** A non-empty CONTAINER wins; otherwise each empty argument falls back to its getter. */
  function Container(env: Env, registry: string, image: string, tag: string, versionTag: string): (r: string)
    ensures Getenv(env, "CONTAINER") != "" ==> r == Getenv(env, "CONTAINER")
    ensures Getenv(env, "CONTAINER") == "" ==> LastIndexOf(r, '/') >= 0
  {
    var container := Getenv(env, "CONTAINER");
    if container != "" then container
    else
      Reference(if registry != "" then registry else ContainerRegistry(env),
                if image != "" then image else ContainerImage(env),
                if tag != "" then tag else ContainerTag(env, versionTag))
  }

  /** A non-empty CONTAINER is the whole answer. Otherwise reading the reference back
      yields each non-empty argument as given and each empty one as its getter's value. */
  lemma ContainerCarriesArguments(env: Env, registry: string, image: string, tag: string, versionTag: string)
    requires var img := if image != "" then image else ContainerImage(env);
             var tg := if tag != "" then tag else ContainerTag(env, versionTag);
             '/' !in img && '/' !in tg && ':' !in img
    ensures Getenv(env, "CONTAINER") != "" ==> Container(env, registry, image, tag, versionTag) == Getenv(env, "CONTAINER")
    ensures Getenv(env, "CONTAINER") == "" ==>
      var parts := ParseReference(Container(env, registry, image, tag, versionTag));
      && parts.0 == (if registry != "" then registry else ContainerRegistry(env))
      && parts.1 == (if image != "" then image else ContainerImage(env))
      && parts.2 == (if tag != "" then tag else ContainerTag(env, versionTag))
  {
    if Getenv(env, "CONTAINER") == "" {
      ReferenceRoundTrip(if registry != "" then registry else ContainerRegistry(env),
                         if image != "" then image else ContainerImage(env),
                         if tag != "" then tag else ContainerTag(env, versionTag));
    }
  }

  function ContainerPlatform(env: Env, arch: string): (r: string)
    ensures Getenv(env, "CONTAINER_PLATFORM") != "" ==> r == Getenv(env, "CONTAINER_PLATFORM")
    ensures Getenv(env, "CONTAINER_PLATFORM") == "" ==> r == "linux/" + arch
    ensures r != ""
  {
    EnvOr(env, "CONTAINER_PLATFORM", "linux/" + arch)
  }

  /** The instance name for a configuration file. */
  function ContainerName(env: Env, defaultConfigFile: string): (r: string)
    ensures Getenv(env, "CONTAINER_NAME") != "" ==> r == Getenv(env, "CONTAINER_NAME")
    ensures Getenv(env, "CONTAINER_NAME") == "" && Contains(defaultConfigFile, "config.yaml") ==> r == "topaz"
    ensures Getenv(env, "CONTAINER_NAME") == "" && !Contains(defaultConfigFile, "config.yaml") ==>
      r == "topaz-" + BeforeFirst(BaseName(defaultConfigFile), '.')
  {
    var containerName := Getenv(env, "CONTAINER_NAME");
    if containerName != "" then containerName
    else if Contains(defaultConfigFile, "config.yaml") then DefaultContainerName
    else DefaultContainerName + "-" + BeforeFirst(BaseName(defaultConfigFile), '.')
  }

  /** The file name a configuration `n` is stored under, and what BaseName makes of it. */
  lemma BaseOfConfigFile(dir: string, n: string)
    requires n != "" && '/' !in n
    ensures BaseName(Join([dir, n + ".yaml"])) == n + ".yaml"
  {
    var file := n + ".yaml";
    assert Join([dir]) == dir by {
      assert [dir][..0] == [];
    }
    assert [dir, file][..1] == [dir];
    var p := Join([dir, file]);
    assert p[|p| - 1] == 'l';
    assert TrimTrailingSlashes(p) == p;
    if dir == "" {
      assert p == file;
      assert '/' !in file;
    } else {
      assert p == dir + "/" + file;
      assert p[|dir| + 1..] == file;
      LastSlashAt(p, |dir|);
    }
  }

  /** For a configuration file `<dir>/<n>.yaml` whose path does not mention "config.yaml",
      the instance is named "topaz-<n>", provided `n` holds no '.' and no '/'. */
  lemma {:induction false} ConfigFileContainerName(env: Env, dir: string, n: string)
    requires Getenv(env, "CONTAINER_NAME") == ""
    requires n != "" && '/' !in n && '.' !in n
    requires !Contains(Join([dir, n + ".yaml"]), "config.yaml")
    ensures ContainerName(env, Join([dir, n + ".yaml"])) == "topaz-" + n
  {
    var file := Join([dir, n + ".yaml"]);
    BaseOfConfigFile(dir, n);
    assert n + ".yaml" == n + ['.'] + "yaml";
    BeforeFirstOfJoined(n, '.', "yaml");
    assert BeforeFirst(BaseName(file), '.') == n;
  }

  /** The "config.yaml" test is a substring test: a configuration called "myconfig" shares
      the default instance name with the default configuration file. */
  lemma SubstringNameCollision(env: Env)
    requires Getenv(env, "CONTAINER_NAME") == ""
    ensures ContainerName(env, "myconfig.yaml") == ContainerName(env, "config.yaml") == "topaz"
  {
    assert OccursAt("myconfig.yaml", "config.yaml", 2);
    assert OccursAt("config.yaml", "config.yaml", 0);
  }

  /** The obsolete version flag wins whenever it is set; the inequality test in the
      source only decides whether a warning is printed. */
  function ContainerVersionTag(version: string, tag: string): (r: string)
    ensures r == if version != "" then version else tag
  {
    if version != "" && version != tag then version else tag
  }
}
