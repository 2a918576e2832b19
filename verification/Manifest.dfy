/** Release manifests: assembled from a tree of files and receipts, verified against a tree later. */
module Manifest {
  import opened Base

  const CATALOG_PATH := "deploy/release/catalog.json"
  const MAX_FILE_SIZE := 1_048_576
  const MAX_MIGRATIONS := 64

  function RequiredChecks(): seq<string> {
    ["go_test", "go_vet", "go_race", "package_build", "web_build", "web_test", "mobile_analyze", "mobile_test",
     "production_config"]
  }

  function FixedInputs(): set<string> {
    {CATALOG_PATH, ".github/workflows/ci-cd.yaml", "Makefile", ".dockerignore", "go.mod", "go.sum", "web/package.json",
     "web/package-lock.json", "web/nginx.conf", "web/.dockerignore", "mobile/pubspec.yaml", "mobile/pubspec.lock",
     "mobile/analysis_options.yaml", "docker-compose.yaml", "docker-compose.production.yaml",
     "deploy/compose/schema-migrate.yaml", "deploy/compose/production.env.example",
     "deploy/acceptance/production-launch-checks.json", "scripts/validate-production-compose.ps1",
     "scripts/test-production-compose.ps1", "internal/infrastructure/schema/catalog.go"}
  }

  // ---- Documents ----

  datatype Component = Component(service: string, package: string, dockerfile: string, context: string, imageEnv: string)

  datatype Catalog = Catalog(version: int, components: seq<Component>)

  /** A base image reference, split at its `@`. */
  datatype BaseImage = BaseImage(repository: string, digest: Option<string>) | Malformed

  datatype ImageReceipt = ImageReceipt(
    service: string, sourceSha: string, catalogSha: string, repository: string, digest: string, published: bool,
    builder: BaseImage, runtime: BaseImage)

  datatype CheckReceipt = CheckReceipt(kind: string, sourceSha: string, passed: bool, evidenceSha: string)

  /** The recorded inputs: sorted by path without repeats, which is a map, or any other list. */
  datatype InputList = Sorted(files: map<string, string>) | OtherList(text: string)

  datatype Manifest = Manifest(
    version: int, sourceSha: string, catalogSha: string, imagesPublished: bool, deploymentAccepted: bool,
    images: seq<ImageReceipt>, checks: seq<CheckReceipt>, inputs: InputList, environment: map<string, string>)

  /** What a path holds: a document of one kind in some spelling, other text, or a directory. */
  datatype Content =
    | CatalogText(catalog: Catalog, spelling: string)
    | ImageText(image: ImageReceipt, spelling: string)
    | CheckText(check: CheckReceipt, spelling: string)
    | ManifestText(manifest: Manifest, spelling: string)
    | Text(text: string)
    | Folder

  datatype File = File(content: Content, size: nat)

  /** The files and directories below the root, by path. */
  type Tree = map<string, File>

  /** The pattern checks, path functions and the digest, as the program's environment gives them. */
  datatype Rules = Rules(
    name: string -> bool, source: string -> bool, repository: string -> bool, digest: string -> bool,
    envOf: string -> string, safe: string -> bool, parent: string -> string, migration: string -> bool,
    sha: Content -> string)

  /** Reading a regular file of bounded size; the empty path is refused. */
  function Read(t: Tree, path: string): Option<Content> {
    if path != "" && path in t && !t[path].content.Folder? && t[path].size <= MAX_FILE_SIZE then Some(t[path].content)
    else None
  }

  // ---- The catalog ----

  function CatalogIn(t: Tree): Option<Catalog> {
    var c := Read(t, CATALOG_PATH);
    if c.Some? && c.value.CatalogText? then Some(c.value.catalog) else None
  }

  function CatalogSha(rules: Rules, t: Tree): string {
    var c := Read(t, CATALOG_PATH);
    if c.None? then "" else rules.sha(c.value)
  }

  predicate ComponentOk(rules: Rules, t: Tree, item: Component) {
    && rules.name(item.service) && item.imageEnv == rules.envOf(item.service)
    && (item.package == "" || item.package == "./cmd/" + item.service)
    && item.context == (if item.service == "frontend" then "web" else ".") && rules.safe(item.context)
    && Read(t, item.dockerfile).Some?
  }

  ghost predicate DistinctComponents(items: seq<Component>) {
    forall i, j :: 0 <= i < j < |items| ==>
      items[i].service != items[j].service && items[i].imageEnv != items[j].imageEnv
  }

  ghost predicate ComponentsOk(rules: Rules, t: Tree, items: seq<Component>) {
    DistinctComponents(items) && forall i :: 0 <= i < |items| ==> ComponentOk(rules, t, items[i])
  }

  ghost predicate CatalogOk(rules: Rules, t: Tree) {
    && CatalogIn(t).Some?
    && var c := CatalogIn(t).value;
       c.version == 1 && 1 <= |c.components| <= 64 && ComponentsOk(rules, t, c.components)
  }

  /** The services and variables of the components read so far. */
  ghost predicate Named(items: seq<Component>, names: set<string>, envs: set<string>) {
    && (forall x :: x in names <==> exists j :: 0 <= j < |items| && items[j].service == x)
    && (forall x :: x in envs <==> exists j :: 0 <= j < |items| && items[j].imageEnv == x)
  }

  lemma OneMoreComponent(
    rules: Rules, t: Tree, items: seq<Component>, item: Component, names: set<string>, envs: set<string>)
    requires Named(items, names, envs)
    ensures Named(items + [item], names + {item.service}, envs + {item.imageEnv})
    ensures ComponentsOk(rules, t, items + [item]) <==>
      && ComponentsOk(rules, t, items) && ComponentOk(rules, t, item)
      && item.service !in names && item.imageEnv !in envs
  {
    hide ComponentOk;
    var all := items + [item];
    assert all[|items|] == item && forall i :: 0 <= i < |items| ==> all[i] == items[i];
    if ComponentsOk(rules, t, all) {
      assert forall i :: 0 <= i < |items| ==> ComponentOk(rules, t, all[i]);
      assert forall i, j :: 0 <= i < j < |items| ==> all[i].service != all[j].service && all[i].imageEnv != all[j].imageEnv;
      assert forall i :: 0 <= i < |items| ==> all[i].service != item.service && all[i].imageEnv != item.imageEnv;
    }
  }

  lemma ComponentsPrefix(rules: Rules, t: Tree, items: seq<Component>, k: nat)
    requires k <= |items|
    ensures ComponentsOk(rules, t, items) ==> ComponentsOk(rules, t, items[..k])
  {
    hide ComponentOk;
    assert forall i :: 0 <= i < k ==> items[..k][i] == items[i];
  }

  method Load(rules: Rules, t: Tree) returns (r: Option<Catalog>)
    ensures r.Some? <==> CatalogOk(rules, t)
    ensures r.Some? ==> r == CatalogIn(t)
  {
    var catalog := CatalogIn(t);
    if catalog.None? || catalog.value.version != 1 || !(1 <= |catalog.value.components| <= 64) {
      return None;
    }
    hide ComponentOk;
    hide CatalogIn;
    var items, names, envs := catalog.value.components, {}, {};
    assert ComponentsOk(rules, t, []) && Named([], names, envs);
    hide ComponentsOk;
    hide Named;
    for i := 0 to |items|
      invariant ComponentsOk(rules, t, items[..i]) && Named(items[..i], names, envs)
    {
      var item := items[i];
      assert items[..i + 1] == items[..i] + [item];
      OneMoreComponent(rules, t, items[..i], item, names, envs);
      ComponentsPrefix(rules, t, items, i + 1);
      if item.service in names || item.imageEnv in envs || !ComponentOk(rules, t, item) {
        return None;
      }
      names, envs := names + {item.service}, envs + {item.imageEnv};
    }
    assert items[..|items|] == items;
    return catalog;
  }

  // ---- Receipts ----

  predicate BaseOk(rules: Rules, base: BaseImage, published: bool) {
    && base.BaseImage? && rules.repository(base.repository)
    && (base.digest.Some? ==> rules.digest(base.digest.value))
    && (published ==> base.digest.Some?)
  }

  predicate EndsWith(s: string, suffix: string) {
    |suffix| <= |s| && s[|s| - |suffix|..] == suffix
  }

  ghost predicate ImageOk(rules: Rules, c: Catalog, catalogSha: string, r: ImageReceipt) {
    && (exists i :: 0 <= i < |c.components| && c.components[i].service == r.service)
    && rules.source(r.sourceSha) && rules.repository(r.repository) && EndsWith(r.repository, "/" + r.service)
    && rules.digest(r.digest) && BaseOk(rules, r.builder, r.published) && BaseOk(rules, r.runtime, r.published)
    && (r.catalogSha != "" ==> r.catalogSha == catalogSha)
  }

  /** Image identity; the source re-reads the catalog, which the caller has just read. */
  method NewImage(rules: Rules, c: Catalog, catalogSha: string, r: ImageReceipt) returns (ok: bool)
    ensures ok <==> ImageOk(rules, c, catalogSha, r)
  {
    var found := false;
    for i := 0 to |c.components|
      invariant found <==> exists j :: 0 <= j < i && c.components[j].service == r.service
    {
      found := found || c.components[i].service == r.service;
    }
    ok := && found && rules.source(r.sourceSha) && rules.repository(r.repository)
          && EndsWith(r.repository, "/" + r.service) && rules.digest(r.digest)
          && BaseOk(rules, r.builder, r.published) && BaseOk(rules, r.runtime, r.published)
          && (r.catalogSha == "" || r.catalogSha == catalogSha);
  }

  /** A receipt that belongs to a component of this release. */
  ghost predicate ReceiptOk(rules: Rules, c: Catalog, catalogSha: string, source: string, item: Component, r: ImageReceipt) {
    r.sourceSha == source && r.catalogSha == catalogSha && r.service == item.service && ImageOk(rules, c, catalogSha, r)
  }

  predicate CheckOk(rules: Rules, source: string, kind: string, r: CheckReceipt) {
    r.kind == kind && r.sourceSha == source && r.passed && rules.digest("sha256:" + r.evidenceSha)
  }

  function Reference(r: ImageReceipt): string {
    r.repository + "@" + r.digest
  }

  function Environment(items: seq<Component>, images: seq<ImageReceipt>): map<string, string>
    requires |images| == |items|
  {
    if items == [] then map[]
    else Environment(items[..|items| - 1], images[..|images| - 1])[items[|items| - 1].imageEnv := Reference(images[|images| - 1])]
  }

  /** One entry per component, no matter the order it was filled in. */
  lemma {:induction false} EnvironmentExactly(items: seq<Component>, images: seq<ImageReceipt>)
    requires |images| == |items| && DistinctComponents(items)
    ensures forall i :: 0 <= i < |items| ==>
      && items[i].imageEnv in Environment(items, images)
      && Environment(items, images)[items[i].imageEnv] == images[i].repository + "@" + images[i].digest
    ensures forall x :: x in Environment(items, images) ==> exists i :: 0 <= i < |items| && items[i].imageEnv == x
  {
    if items != [] {
      EnvironmentExactly(items[..|items| - 1], images[..|images| - 1]);
    }
  }

  // ---- Inputs ----

  ghost function Migrations(rules: Rules, t: Tree): set<string> {
    set p | p in t && rules.migration(p)
  }

  ghost function InputPaths(rules: Rules, t: Tree, c: Catalog): set<string> {
    FixedInputs() + (set i | 0 <= i < |c.components| :: c.components[i].dockerfile) + Migrations(rules, t)
  }

  ghost predicate InputsReadable(rules: Rules, t: Tree, c: Catalog) {
    |Migrations(rules, t)| <= MAX_MIGRATIONS && forall p :: p in InputPaths(rules, t, c) ==> Read(t, p).Some?
  }

  /** The digest of every input file. */
  ghost function Snapshot(rules: Rules, t: Tree, c: Catalog): map<string, string>
    requires InputsReadable(rules, t, c)
  {
    map p | p in InputPaths(rules, t, c) :: rules.sha(Read(t, p).value)
  }

  datatype FileDigest = FileDigest(path: string, sha: string)

  /** A list of digests as a map. */
  function AsMap(list: seq<FileDigest>): map<string, string> {
    if list == [] then map[] else AsMap(list[..|list| - 1])[list[|list| - 1].path := list[|list| - 1].sha]
  }

  /** Equal paths stand next to each other, as sorting leaves them. */
  ghost predicate Grouped(listed: seq<string>) {
    forall i, j, k :: 0 <= i < j < k < |listed| && listed[i] == listed[k] ==> listed[j] == listed[i]
  }

  ghost predicate NoRepeats(list: seq<FileDigest>) {
    forall i, j :: 0 <= i < j < |list| ==> list[i].path != list[j].path
  }

  /** What hashing the first i listed paths has produced. */
  ghost predicate Hashed(rules: Rules, t: Tree, listed: seq<string>, i: nat, list: seq<FileDigest>)
    requires i <= |listed|
  {
    && NoRepeats(list)
    && (forall p :: p in listed[..i] <==> exists j :: 0 <= j < |list| && list[j].path == p)
    && (forall j :: 0 <= j < |list| ==> Read(t, list[j].path).Some? && list[j].sha == rules.sha(Read(t, list[j].path).value))
  }

  lemma {:induction false} AsMapExactly(list: seq<FileDigest>)
    requires NoRepeats(list)
    ensures forall j :: 0 <= j < |list| ==> list[j].path in AsMap(list) && AsMap(list)[list[j].path] == list[j].sha
    ensures forall p :: p in AsMap(list) ==> exists j :: 0 <= j < |list| && list[j].path == p
  {
    if list != [] {
      AsMapExactly(list[..|list| - 1]);
    }
  }

  lemma HashedMore(rules: Rules, t: Tree, listed: seq<string>, i: nat, list: seq<FileDigest>)
    requires i < |listed| && Hashed(rules, t, listed, i, list) && Grouped(listed)
    ensures i > 0 && listed[i] == listed[i - 1] ==> Hashed(rules, t, listed, i + 1, list)
    ensures (i == 0 || listed[i] != listed[i - 1]) && Read(t, listed[i]).Some? ==>
      Hashed(rules, t, listed, i + 1, list + [FileDigest(listed[i], rules.sha(Read(t, listed[i]).value))])
  {
    hide Read;
    var path := listed[i];
    assert listed[..i + 1] == listed[..i] + [path];
    if i > 0 && path == listed[i - 1] {
      assert listed[i - 1] in listed[..i];
    }
    if i == 0 || path != listed[i - 1] {
      assert forall j :: 0 <= j < i ==> listed[j] != path;
      assert path !in listed[..i];
      assert forall j :: 0 <= j < |list| ==> list[j].path in listed[..i];
      if Read(t, path).Some? {
        var all := list + [FileDigest(path, rules.sha(Read(t, path).value))];
        assert all[|list|].path == path && forall j :: 0 <= j < |list| ==> all[j] == list[j];
      }
    }
  }

  lemma HashedAll(rules: Rules, t: Tree, c: Catalog, listed: seq<string>, list: seq<FileDigest>)
    requires Hashed(rules, t, listed, |listed|, list) && |Migrations(rules, t)| <= MAX_MIGRATIONS
    requires forall p :: p in listed <==> p in InputPaths(rules, t, c)
    ensures InputsReadable(rules, t, c) && AsMap(list) == Snapshot(rules, t, c)
  {
    hide InputPaths;
    hide Migrations;
    hide Read;
    assert listed[..|listed|] == listed;
    AsMapExactly(list);
    hide AsMap;
  }

  /** Reads and hashes the sorted inputs, skipping a path that repeats the one before it. */
  method SnapshotInputs(rules: Rules, t: Tree, ghost c: Catalog, listed: seq<string>, migrations: nat)
    returns (r: Option<seq<FileDigest>>)
    requires migrations == |Migrations(rules, t)| && Grouped(listed) && "" !in listed
    requires forall p :: p in listed <==> p in InputPaths(rules, t, c)
    ensures r.Some? <==> InputsReadable(rules, t, c)
    ensures r.Some? ==> NoRepeats(r.value) && AsMap(r.value) == Snapshot(rules, t, c)
  {
    hide InputPaths;
    hide Migrations;
    hide Read;
    if migrations > MAX_MIGRATIONS {
      return None;
    }
    var result: seq<FileDigest>, previous := [], "";
    for i := 0 to |listed|
      invariant Hashed(rules, t, listed, i, result)
      invariant previous == if i == 0 then "" else listed[i - 1]
    {
      hide Hashed;
      HashedMore(rules, t, listed, i, result);
      var path := listed[i];
      assert path in listed;
      if path != previous {
        previous := path;
        var body := Read(t, path);
        if body.None? {
          return None;
        }
        result := result + [FileDigest(path, rules.sha(body.value))];
      }
    }
    HashedAll(rules, t, c, listed, result);
    return Some(result);
  }
}
