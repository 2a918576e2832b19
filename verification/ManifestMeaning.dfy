/** What an accepted manifest says about images, checks and inputs, in the words of the files. */
module ManifestMeaning {
  import opened Base
  import opened Manifest
  import opened ManifestChecks

  /** A base image that is acceptable: a well-formed repository, pinned if the image is published. */
  predicate Pinned(rules: Rules, base: BaseImage, published: bool) {
    && base.BaseImage? && rules.repository(base.repository)
    && (base.digest.None? || rules.digest(base.digest.value)) && !(published && base.digest.None?)
  }

  lemma PinnedMeans(rules: Rules, base: BaseImage, published: bool)
    ensures BaseOk(rules, base, published) <==> Pinned(rules, base, published)
  {
  }

  lemma SuffixMeans(s: string, suffix: string)
    ensures EndsWith(s, suffix) ==> s == s[..|s| - |suffix|] + suffix
    ensures forall prefix :: s == prefix + suffix ==> EndsWith(s, suffix)
  {
  }

  /** The i-th image of an accepted manifest: the i-th component's, built from the manifest's source under
      the catalog as it is, in a repository named after the service, at a valid digest, on acceptable
      bases, and published or not like all the others; and its reference is the component's variable. */
  lemma AcceptedImage(rules: Rules, t: Tree, path: string, requirePublished: bool, i: nat)
    requires Accepts(rules, t, path, requirePublished) && i < |ManifestAt(t, path).value.images|
    ensures CatalogIn(t).Some? && Read(t, CATALOG_PATH).Some?
    ensures var m, c := ManifestAt(t, path).value, CatalogIn(t).value;
      && |m.images| == |c.components| && rules.source(m.sourceSha) && !m.deploymentAccepted
      && (requirePublished ==> m.imagesPublished)
      && m.catalogSha == rules.sha(Read(t, CATALOG_PATH).value)
      && var r, item := m.images[i], c.components[i];
         && r.service == item.service && r.sourceSha == m.sourceSha && r.catalogSha == m.catalogSha
         && rules.repository(r.repository) && (exists prefix :: r.repository == prefix + ("/" + r.service))
         && rules.digest(r.digest) && r.published == m.imagesPublished
         && Pinned(rules, r.builder, r.published) && Pinned(rules, r.runtime, r.published)
         && item.imageEnv in m.environment && m.environment[item.imageEnv] == r.repository + "@" + r.digest
  {
    AcceptsParts(rules, t, path, requirePublished);
    var m, c := ManifestAt(t, path).value, CatalogIn(t).value;
    var r := m.images[i];
    assert ReceiptOk(rules, c, CatalogSha(rules, t), m.sourceSha, c.components[i], r) && r.published == m.imagesPublished by {
      hide ReceiptOk;
      hide CatalogSha;
    }
    SuffixMeans(r.repository, "/" + r.service);
    PinnedMeans(rules, r.builder, r.published);
    PinnedMeans(rules, r.runtime, r.published);
    assert DistinctComponents(c.components);
    EnvironmentExactly(c.components, m.images);
    hide Accepts;
    hide ComponentOk;
    hide Environment;
    hide RequiredChecks;
    hide InputPaths;
    hide Snapshot;
  }

  /** The checks of an accepted manifest: all nine of them, in order, passed, for the same source, each with
      a valid evidence digest. */
  lemma AcceptedChecks(rules: Rules, t: Tree, path: string, requirePublished: bool)
    requires Accepts(rules, t, path, requirePublished)
    ensures var m := ManifestAt(t, path).value;
      && |m.checks| == 9
      && m.checks[0].kind == "go_test" && m.checks[1].kind == "go_vet" && m.checks[2].kind == "go_race"
      && m.checks[3].kind == "package_build" && m.checks[4].kind == "web_build" && m.checks[5].kind == "web_test"
      && m.checks[6].kind == "mobile_analyze" && m.checks[7].kind == "mobile_test" && m.checks[8].kind == "production_config"
      && forall i :: 0 <= i < 9 ==>
           && m.checks[i].passed && m.checks[i].sourceSha == m.sourceSha
           && rules.digest("sha256:" + m.checks[i].evidenceSha)
  {
    AcceptsParts(rules, t, path, requirePublished);
    hide Accepts;
    var m := ManifestAt(t, path).value;
    hide ManifestAt;
    CheckKinds(rules, m);
  }

  lemma CheckKinds(rules: Rules, m: Manifest)
    requires ChecksMatch(rules, m)
    ensures |m.checks| == 9
    ensures m.checks[0].kind == "go_test" && m.checks[1].kind == "go_vet" && m.checks[2].kind == "go_race"
    ensures m.checks[3].kind == "package_build" && m.checks[4].kind == "web_build" && m.checks[5].kind == "web_test"
    ensures m.checks[6].kind == "mobile_analyze" && m.checks[7].kind == "mobile_test"
    ensures m.checks[8].kind == "production_config"
    ensures forall i :: 0 <= i < 9 ==>
      m.checks[i].passed && m.checks[i].sourceSha == m.sourceSha && rules.digest("sha256:" + m.checks[i].evidenceSha)
  {
    var kinds := RequiredChecks();
    assert |kinds| == 9;
    assert forall i :: 0 <= i < 9 ==> CheckOk(rules, m.sourceSha, kinds[i], m.checks[i]);
  }

  /** The inputs of an accepted manifest: the digest recorded for every component's Dockerfile, every
      migration and the catalog is that of the file as it is now. */
  lemma AcceptedInputs(rules: Rules, t: Tree, path: string, requirePublished: bool, p: string)
    requires Accepts(rules, t, path, requirePublished) && CatalogIn(t).Some?
    requires || p == "deploy/release/catalog.json" || (p in t && rules.migration(p))
             || exists i :: 0 <= i < |CatalogIn(t).value.components| && CatalogIn(t).value.components[i].dockerfile == p
    ensures var m := ManifestAt(t, path).value;
      m.inputs.Sorted? && p in m.inputs.files && Read(t, p).Some? && m.inputs.files[p] == rules.sha(Read(t, p).value)
  {
    AcceptsParts(rules, t, path, requirePublished);
    hide Accepts;
    hide Read;
    hide CatalogIn;
    hide ManifestAt;
    hide CatalogOk;
    var c := CatalogIn(t).value;
    assert p in InputPaths(rules, t, c);
    hide InputPaths;
  }

  /** A catalog that loads: version 1, one to 64 components, and for each a well-formed name that no other
      has, the variable that belongs to it, its command's package if any, the fixed build context, and a
      readable Dockerfile. */
  lemma LoadedCatalog(rules: Rules, t: Tree, i: nat, j: nat)
    requires CatalogOk(rules, t) && i < |CatalogIn(t).value.components|
    ensures Read(t, "deploy/release/catalog.json") == Some(CatalogText(CatalogIn(t).value, Read(t, CATALOG_PATH).value.spelling))
    ensures var c := CatalogIn(t).value;
      && c.version == 1 && 1 <= |c.components| <= 64
      && var item := c.components[i];
         && rules.name(item.service) && item.imageEnv == rules.envOf(item.service)
         && (item.package == "" || item.package == "./cmd/" + item.service)
         && (item.service == "frontend" ==> item.context == "web") && (item.service != "frontend" ==> item.context == ".")
         && rules.safe(item.context) && Read(t, item.dockerfile).Some?
         && (i < j < |c.components| ==>
               item.service != c.components[j].service && item.imageEnv != c.components[j].imageEnv)
  {
    assert ComponentOk(rules, t, CatalogIn(t).value.components[i]);
  }

  /** The files every manifest records, besides Dockerfiles and migrations. */
  lemma NamedInputs(rules: Rules, t: Tree, c: Catalog)
    ensures var inputs := InputPaths(rules, t, c);
      && "deploy/release/catalog.json" in inputs && ".github/workflows/ci-cd.yaml" in inputs && "Makefile" in inputs
      && ".dockerignore" in inputs && "go.mod" in inputs && "go.sum" in inputs && "web/package.json" in inputs
      && "web/package-lock.json" in inputs && "web/nginx.conf" in inputs && "web/.dockerignore" in inputs
      && "mobile/pubspec.yaml" in inputs && "mobile/pubspec.lock" in inputs && "mobile/analysis_options.yaml" in inputs
      && "docker-compose.yaml" in inputs && "docker-compose.production.yaml" in inputs
      && "deploy/compose/schema-migrate.yaml" in inputs && "deploy/compose/production.env.example" in inputs
      && "deploy/acceptance/production-launch-checks.json" in inputs
      && "scripts/validate-production-compose.ps1" in inputs && "scripts/test-production-compose.ps1" in inputs
      && "internal/infrastructure/schema/catalog.go" in inputs
  {
  }
}
