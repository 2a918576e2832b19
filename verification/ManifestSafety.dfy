/** What a verified manifest says about the files: exactly that no input changed. */
module ManifestSafety {
  import opened Base
  import opened Manifest
  import opened ManifestChecks

  ghost predicate CollisionFree(rules: Rules) {
    forall a, b :: rules.sha(a) == rules.sha(b) ==> a == b
  }

  /** The later tree has the same migrations, and every input of the earlier one unchanged. */
  ghost predicate SameInputs(rules: Rules, before: Tree, after: Tree, c: Catalog) {
    && Migrations(rules, after) == Migrations(rules, before)
    && forall p :: p in InputPaths(rules, before, c) ==> Read(after, p) == Read(before, p)
  }

  lemma CatalogIsInput(rules: Rules, t: Tree, c: Catalog)
    ensures CATALOG_PATH in InputPaths(rules, t, c)
    ensures forall i :: 0 <= i < |c.components| ==> c.components[i].dockerfile in InputPaths(rules, t, c)
  {
  }

  lemma MigrationsAreInputs(rules: Rules, t: Tree, c: Catalog)
    ensures Migrations(rules, t) <= InputPaths(rules, t, c)
  {
  }

  lemma SamePaths(rules: Rules, before: Tree, after: Tree, c: Catalog)
    requires Migrations(rules, after) == Migrations(rules, before)
    ensures InputPaths(rules, after, c) == InputPaths(rules, before, c)
  {
    hide Migrations;
    hide FixedInputs;
  }

  lemma SameCatalog(rules: Rules, before: Tree, after: Tree)
    requires Read(after, CATALOG_PATH) == Read(before, CATALOG_PATH)
    ensures CatalogIn(after) == CatalogIn(before) && CatalogSha(rules, after) == CatalogSha(rules, before)
  {
  }

  lemma CatalogStaysOk(rules: Rules, before: Tree, after: Tree)
    requires CatalogOk(rules, before) && Read(after, CATALOG_PATH) == Read(before, CATALOG_PATH)
    requires forall i :: 0 <= i < |CatalogIn(before).value.components| ==>
      Read(after, CatalogIn(before).value.components[i].dockerfile) == Read(before, CatalogIn(before).value.components[i].dockerfile)
    ensures CatalogOk(rules, after)
  {
    SameCatalog(rules, before, after);
    hide CatalogIn;
    hide Read;
    var c := CatalogIn(before).value;
    assert forall i :: 0 <= i < |c.components| ==> ComponentOk(rules, before, c.components[i]);
  }

  lemma SameReadable(rules: Rules, before: Tree, after: Tree, c: Catalog)
    requires InputsReadable(rules, before, c) && SameInputs(rules, before, after, c)
    requires InputPaths(rules, after, c) == InputPaths(rules, before, c)
    ensures InputsReadable(rules, after, c)
  {
    hide InputPaths;
    hide Migrations;
    hide Read;
  }

  lemma SameSnapshot(rules: Rules, before: Tree, after: Tree, c: Catalog)
    requires InputsReadable(rules, before, c) && SameInputs(rules, before, after, c)
    ensures InputsReadable(rules, after, c) && Snapshot(rules, after, c) == Snapshot(rules, before, c)
  {
    hide *;
    SamePathsOf(rules, before, after, c);
    SameReadable(rules, before, after, c);
    SnapshotKeys(rules, before, c);
    SnapshotKeys(rules, after, c);
    forall p | p in InputPaths(rules, before, c)
      ensures p in Snapshot(rules, after, c) && p in Snapshot(rules, before, c)
      ensures Snapshot(rules, after, c)[p] == Snapshot(rules, before, c)[p]
    {
      SameRead(rules, before, after, c, p);
      assert p in Snapshot(rules, after, c).Keys && p in Snapshot(rules, before, c).Keys;
    }
  }

  lemma SamePathsOf(rules: Rules, before: Tree, after: Tree, c: Catalog)
    requires SameInputs(rules, before, after, c)
    ensures InputPaths(rules, after, c) == InputPaths(rules, before, c)
  {
    hide InputPaths;
    SamePaths(rules, before, after, c);
  }

  lemma SameRead(rules: Rules, before: Tree, after: Tree, c: Catalog, p: string)
    requires SameInputs(rules, before, after, c) && p in InputPaths(rules, before, c)
    ensures Read(after, p) == Read(before, p)
  {
    hide InputPaths;
    hide Read;
  }

  lemma ManifestMatches(
    rules: Rules, t: Tree, source: string, imageDir: string, checkDir: string, after: Tree)
    requires Assemblable(rules, t, source, imageDir, checkDir)
    requires CatalogSha(rules, after) == CatalogSha(rules, t)
    ensures var m, c := Assembled(rules, t, source, imageDir, checkDir), CatalogIn(t).value;
      ImagesMatch(rules, after, c, m) && ChecksMatch(rules, m) && m.environment == Environment(c.components, m.images)
  {
    AssembledParts(rules, t, source, imageDir, checkDir);
    AssemblableParts(rules, t, source, imageDir, checkDir);
    var m, c := Assembled(rules, t, source, imageDir, checkDir), CatalogIn(t).value;
    ImagesOfAt(rules, t, c, source, imageDir, c.components);
    hide *;
    assert |m.images| == |c.components|;
    Uniform(m.images);
    AllMatch(rules, t, after, c, m);
    ChecksOfMatch(rules, t, source, checkDir, m);
  }

  lemma Uniform(images: seq<ImageReceipt>)
    requires NotMixed(images)
    ensures forall i :: 0 <= i < |images| ==> images[i].published == AllPublished(images)
  {
  }

  lemma AllMatch(rules: Rules, t: Tree, after: Tree, c: Catalog, m: Manifest)
    requires |m.images| == |c.components| && CatalogSha(rules, after) == CatalogSha(rules, t)
    requires forall i :: 0 <= i < |c.components| ==>
      ReceiptOk(rules, c, CatalogSha(rules, t), m.sourceSha, c.components[i], m.images[i])
    requires forall i :: 0 <= i < |m.images| ==> m.images[i].published == m.imagesPublished
    ensures ImagesMatch(rules, after, c, m)
  {
    hide ReceiptOk;
    hide CatalogSha;
  }

  lemma ChecksOfMatch(rules: Rules, t: Tree, source: string, checkDir: string, m: Manifest)
    requires ChecksReady(rules, t, source, checkDir, RequiredChecks()) && m.sourceSha == source
    requires m.checks == ChecksOf(rules, t, source, checkDir, RequiredChecks())
    ensures ChecksMatch(rules, m)
  {
    hide RequiredChecks;
    hide CheckOk;
    var kinds := RequiredChecks();
    assert forall i :: 0 <= i < |kinds| ==> CheckReady(rules, t, source, checkDir, kinds[i]);
  }

  /** If no input changed, the manifest is accepted, whatever else happened to the tree. */
  lemma UnchangedIsAccepted(
    rules: Rules, before: Tree, source: string, imageDir: string, checkDir: string,
    after: Tree, path: string, requirePublished: bool)
    requires Assemblable(rules, before, source, imageDir, checkDir)
    requires ManifestAt(after, path) == Some(Assembled(rules, before, source, imageDir, checkDir))
    requires CatalogIn(before).Some? && SameInputs(rules, before, after, CatalogIn(before).value)
    requires requirePublished ==> Assembled(rules, before, source, imageDir, checkDir).imagesPublished
    ensures Accepts(rules, after, path, requirePublished)
  {
    AssembledParts(rules, before, source, imageDir, checkDir);
    AssemblableParts(rules, before, source, imageDir, checkDir);
    var c := CatalogIn(before).value;
    CatalogIsInput(rules, before, c);
    assert Read(after, CATALOG_PATH) == Read(before, CATALOG_PATH);
    assert forall i :: 0 <= i < |c.components| ==> Read(after, c.components[i].dockerfile) == Read(before, c.components[i].dockerfile);
    hide *;
    SameCatalog(rules, before, after);
    CatalogStaysOk(rules, before, after);
    SameSnapshot(rules, before, after, c);
    ManifestMatches(rules, before, source, imageDir, checkDir, after);
    AcceptsParts(rules, after, path, requirePublished);
    ChecksSize(rules, ManifestAt(after, path).value);
    ImagesSize(rules, after, c, ManifestAt(after, path).value);
  }

  lemma ChecksSize(rules: Rules, m: Manifest)
    requires ChecksMatch(rules, m)
    ensures |m.checks| == |RequiredChecks()|
  {
  }

  lemma ImagesSize(rules: Rules, t: Tree, c: Catalog, m: Manifest)
    requires ImagesMatch(rules, t, c, m)
    ensures |m.images| == |c.components|
  {
  }

  lemma SnapshotKeys(rules: Rules, t: Tree, c: Catalog)
    requires InputsReadable(rules, t, c)
    ensures Snapshot(rules, t, c).Keys == InputPaths(rules, t, c)
    ensures forall p :: p in InputPaths(rules, t, c) ==>
      Read(t, p).Some? && p in t && Snapshot(rules, t, c)[p] == rules.sha(Read(t, p).value)
    ensures forall p :: p in t && rules.migration(p) <==> p in Migrations(rules, t)
  {
    hide InputPaths;
  }

  /** Equal snapshots come from equal inputs. */
  lemma SnapshotFixesInputs(rules: Rules, before: Tree, after: Tree, c: Catalog)
    requires CollisionFree(rules) && InputsReadable(rules, before, c) && InputsReadable(rules, after, c)
    requires Snapshot(rules, after, c) == Snapshot(rules, before, c)
    ensures SameInputs(rules, before, after, c)
  {
    hide *;
    SnapshotKeys(rules, before, c);
    SnapshotKeys(rules, after, c);
    MigrationsAreInputs(rules, before, c);
    MigrationsAreInputs(rules, after, c);
    forall p | p in InputPaths(rules, before, c) ensures Read(after, p) == Read(before, p) {
      assert rules.sha(Read(after, p).value) == rules.sha(Read(before, p).value);
      Injective(rules, Read(after, p).value, Read(before, p).value);
    }
    assert Migrations(rules, after) == Migrations(rules, before);
    InputsAreSame(rules, before, after, c);
  }

  lemma Injective(rules: Rules, a: Content, b: Content)
    requires CollisionFree(rules) && rules.sha(a) == rules.sha(b)
    ensures a == b
  {
  }

  lemma InputsAreSame(rules: Rules, before: Tree, after: Tree, c: Catalog)
    requires Migrations(rules, after) == Migrations(rules, before)
    requires forall p :: p in InputPaths(rules, before, c) ==> Read(after, p) == Read(before, p)
    ensures SameInputs(rules, before, after, c)
  {
    hide InputPaths;
    hide Migrations;
    hide Read;
  }

  lemma CatalogFixed(rules: Rules, before: Tree, after: Tree)
    requires CollisionFree(rules) && CatalogOk(rules, before) && CatalogOk(rules, after)
    requires CatalogSha(rules, after) == CatalogSha(rules, before)
    ensures CatalogIn(after) == CatalogIn(before)
  {
    hide ComponentsOk;
  }

  /** An assembled manifest, found later in any tree, is accepted if and only if every input file
      still reads the same, no migration was added or removed, and, when publication is required,
      all its images were published. */
  lemma DriftIsDetected(
    rules: Rules, before: Tree, source: string, imageDir: string, checkDir: string,
    after: Tree, path: string, requirePublished: bool)
    requires CollisionFree(rules) && Assemblable(rules, before, source, imageDir, checkDir)
    requires ManifestAt(after, path) == Some(Assembled(rules, before, source, imageDir, checkDir))
    ensures CatalogIn(before).Some?
    ensures Accepts(rules, after, path, requirePublished) <==>
      && SameInputs(rules, before, after, CatalogIn(before).value)
      && (requirePublished ==> Assembled(rules, before, source, imageDir, checkDir).imagesPublished)
  {
    hide *;
    AssembledParts(rules, before, source, imageDir, checkDir);
    AssemblableParts(rules, before, source, imageDir, checkDir);
    var c := CatalogIn(before).value;
    AcceptsParts(rules, after, path, requirePublished);
    if Accepts(rules, after, path, requirePublished) {
      CatalogFixed(rules, before, after);
      SnapshotFixesInputs(rules, before, after, c);
    }
    if SameInputs(rules, before, after, c)
       && (requirePublished ==> Assembled(rules, before, source, imageDir, checkDir).imagesPublished) {
      UnchangedIsAccepted(rules, before, source, imageDir, checkDir, after, path, requirePublished);
    }
  }

  function Written(t: Tree, path: string, m: Manifest, spelling: string, size: nat): Tree {
    t[path := File(ManifestText(m, spelling), size)]
  }

  lemma WrittenReads(rules: Rules, t: Tree, path: string, m: Manifest, spelling: string, size: nat)
    requires path !in t && path != ""
    ensures var after := Written(t, path, m, spelling, size);
      && (ManifestAt(after, path) == if size <= MAX_FILE_SIZE then Some(m) else None)
      && (forall p :: p in t ==> Read(after, p) == Read(t, p))
      && (Migrations(rules, after) == if rules.migration(path) then Migrations(rules, t) + {path} else Migrations(rules, t))
  {
  }

  /** Writing the manifest beside the files it describes and verifying it at once succeeds exactly
      when the new file is small enough to read back, is not itself a migration, and is published
      if that is asked for. */
  lemma AssembleThenVerify(
    rules: Rules, t: Tree, source: string, imageDir: string, checkDir: string,
    path: string, spelling: string, size: nat, requirePublished: bool)
    requires Assemblable(rules, t, source, imageDir, checkDir) && path !in t && path != ""
    ensures var m := Assembled(rules, t, source, imageDir, checkDir);
      && CatalogIn(t).Some?
      && (m.imagesPublished <==> AllPublished(m.images))
      && (Accepts(rules, Written(t, path, m, spelling, size), path, requirePublished) <==>
            && size <= MAX_FILE_SIZE && !rules.migration(path)
            && (requirePublished ==> m.imagesPublished))
  {
    hide *;
    AssembledParts(rules, t, source, imageDir, checkDir);
    AssemblableParts(rules, t, source, imageDir, checkDir);
    var m, c := Assembled(rules, t, source, imageDir, checkDir), CatalogIn(t).value;
    var after := Written(t, path, m, spelling, size);
    WrittenReads(rules, t, path, m, spelling, size);
    AcceptsParts(rules, after, path, requirePublished);
    SnapshotKeys(rules, t, c);
    if size <= MAX_FILE_SIZE && !rules.migration(path) && (requirePublished ==> m.imagesPublished) {
      InputsStay(rules, t, after, c);
      UnchangedIsAccepted(rules, t, source, imageDir, checkDir, after, path, requirePublished);
    }
    if Accepts(rules, after, path, requirePublished) && rules.migration(path) {
      NewMigrationShows(rules, t, after, c, CatalogIn(after).value, path);
    }
  }

  lemma InputsStay(rules: Rules, t: Tree, after: Tree, c: Catalog)
    requires (forall p :: p in InputPaths(rules, t, c) ==> p in t) && (forall p :: p in t ==> Read(after, p) == Read(t, p))
    requires Migrations(rules, after) == Migrations(rules, t)
    ensures SameInputs(rules, t, after, c)
  {
    hide InputPaths;
    hide Migrations;
    hide Read;
  }

  lemma NewMigrationShows(rules: Rules, t: Tree, after: Tree, c: Catalog, c': Catalog, path: string)
    requires InputsReadable(rules, t, c) && InputsReadable(rules, after, c')
    requires path !in t && path in Migrations(rules, after)
    ensures Snapshot(rules, after, c') != Snapshot(rules, t, c)
  {
    SnapshotKeys(rules, t, c);
    SnapshotKeys(rules, after, c');
    MigrationsAreInputs(rules, after, c');
    hide InputPaths;
    assert path in Snapshot(rules, after, c').Keys;
    assert path !in Snapshot(rules, t, c).Keys;
  }
}
