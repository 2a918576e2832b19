/** Assembling a manifest and verifying it: what acceptance means about the files. */
module ManifestChecks {
  import opened Base
  import opened Manifest

  // ---- Assembling ----

  function ReceiptPath(dir: string, name: string): string {
    dir + "/" + name + ".json"
  }

  function ImageAt(t: Tree, path: string): Option<ImageReceipt> {
    var c := Read(t, path);
    if c.Some? && c.value.ImageText? then Some(c.value.image) else None
  }

  function CheckAt(t: Tree, path: string): Option<CheckReceipt> {
    var c := Read(t, path);
    if c.Some? && c.value.CheckText? then Some(c.value.check) else None
  }

  ghost function Children(rules: Rules, t: Tree, dir: string): set<string> {
    set p | p in t && rules.parent(p) == dir
  }

  ghost function Expected(dir: string, names: seq<string>): set<string> {
    set i | 0 <= i < |names| :: ReceiptPath(dir, names[i])
  }

  /** The directory holds exactly the expected receipts, and none of them is a directory. */
  ghost predicate HoldsExactly(rules: Rules, t: Tree, dir: string, names: seq<string>) {
    && Children(rules, t, dir) == Expected(dir, names)
    && forall p :: p in Children(rules, t, dir) ==> !t[p].content.Folder?
  }

  /** Compares the number of entries, then each entry's name and kind. */
  method ExactFiles(rules: Rules, t: Tree, dir: string, names: seq<string>, entries: set<string>) returns (ok: bool)
    requires entries == Children(rules, t, dir)
    ensures ok <==> HoldsExactly(rules, t, dir, names)
  {
    hide ReceiptPath;
    var expected: set<string> := {};
    for i := 0 to |names|
      invariant expected == Expected(dir, names[..i])
    {
      assert names[..i + 1] == names[..i] + [names[i]];
      ExpectedSnoc(dir, names[..i], names[i]);
      expected := expected + {ReceiptPath(dir, names[i])};
    }
    assert names[..|names|] == names;
    if |entries| != |expected| {
      return false;
    }
    var rest := entries;
    while rest != {}
      invariant rest <= entries && entries - rest <= expected
      invariant forall p :: p in entries - rest ==> !t[p].content.Folder?
      decreases |rest|
    {
      var entry :| entry in rest;
      if entry !in expected || t[entry].content.Folder? {
        return false;
      }
      rest := rest - {entry};
    }
    SameSizeSubset(entries, expected);
    return true;
  }

  lemma ExpectedSnoc(dir: string, names: seq<string>, name: string)
    ensures Expected(dir, names + [name]) == Expected(dir, names) + {ReceiptPath(dir, name)}
  {
    hide ReceiptPath;
    var all := names + [name];
    assert all[|names|] == name && forall i :: 0 <= i < |names| ==> all[i] == names[i];
    forall p ensures p in Expected(dir, all) <==> p in Expected(dir, names) || p == ReceiptPath(dir, name) {
      if p in Expected(dir, names) {
        var i :| 0 <= i < |names| && p == ReceiptPath(dir, names[i]);
        assert all[i] == names[i];
      }
    }
  }

  function Services(items: seq<Component>): (s: seq<string>)
    ensures |s| == |items|
  {
    seq(|items|, i requires 0 <= i < |items| => items[i].service)
  }

  /** Every component's receipt is there and belongs to this release. */
  ghost predicate ImagesReady(rules: Rules, t: Tree, c: Catalog, source: string, dir: string, items: seq<Component>) {
    forall i :: 0 <= i < |items| ==> ImageReady(rules, t, c, source, dir, items[i])
  }

  ghost predicate ImageReady(rules: Rules, t: Tree, c: Catalog, source: string, dir: string, item: Component) {
    var r := ImageAt(t, ReceiptPath(dir, item.service));
    r.Some? && ReceiptOk(rules, c, CatalogSha(rules, t), source, item, r.value)
  }

  ghost function ImagesOf(rules: Rules, t: Tree, c: Catalog, source: string, dir: string, items: seq<Component>): (s: seq<ImageReceipt>)
    requires ImagesReady(rules, t, c, source, dir, items)
    ensures |s| == |items|
  {
    if items == [] then []
    else
      var last := items[|items| - 1];
      assert ImageReady(rules, t, c, source, dir, last);
      ImagesOf(rules, t, c, source, dir, items[..|items| - 1]) + [ImageAt(t, ReceiptPath(dir, last.service)).value]
  }

  lemma {:induction false} ImagesOfAt(rules: Rules, t: Tree, c: Catalog, source: string, dir: string, items: seq<Component>)
    requires ImagesReady(rules, t, c, source, dir, items)
    ensures forall i :: 0 <= i < |items| ==>
      ReceiptOk(rules, c, CatalogSha(rules, t), source, items[i], ImagesOf(rules, t, c, source, dir, items)[i])
  {
    hide ReceiptOk;
    if items != [] {
      ImagesOfAt(rules, t, c, source, dir, items[..|items| - 1]);
      assert ImageReady(rules, t, c, source, dir, items[|items| - 1]);
    }
  }

  ghost predicate AllPublished(images: seq<ImageReceipt>) {
    forall i :: 0 <= i < |images| ==> images[i].published
  }

  ghost predicate NotMixed(images: seq<ImageReceipt>) {
    forall i :: 0 <= i < |images| ==> images[i].published == images[0].published
  }

  datatype Collected = Collected(images: seq<ImageReceipt>, published: bool, environment: map<string, string>)

  /** What has been gathered for some of the components. */
  ghost predicate Gathered(
    rules: Rules, t: Tree, c: Catalog, source: string, dir: string, items: seq<Component>, got: Collected)
  {
    && ImagesReady(rules, t, c, source, dir, items)
    && got.images == ImagesOf(rules, t, c, source, dir, items) && NotMixed(got.images)
    && got.published == AllPublished(got.images) && got.environment == Environment(items, got.images)
  }

  lemma GatherNothing(rules: Rules, t: Tree, c: Catalog, source: string, dir: string)
    ensures Gathered(rules, t, c, source, dir, [], Collected([], true, map[]))
  {
  }

  lemma ReadyOne(rules: Rules, t: Tree, c: Catalog, source: string, dir: string, items: seq<Component>, item: Component)
    requires ImagesReady(rules, t, c, source, dir, items) && ImageReady(rules, t, c, source, dir, item)
    ensures ImagesReady(rules, t, c, source, dir, items + [item])
    ensures ImageAt(t, ReceiptPath(dir, item.service)).Some?
    ensures ImagesOf(rules, t, c, source, dir, items + [item]) ==
            ImagesOf(rules, t, c, source, dir, items) + [ImageAt(t, ReceiptPath(dir, item.service)).value]
  {
    assert ImageAt(t, ReceiptPath(dir, item.service)).Some?;
    hide ImageReady;
    hide ImageAt;
    hide ReceiptPath;
    assert (items + [item])[..|items|] == items;
  }

  lemma GatherOne(
    rules: Rules, t: Tree, c: Catalog, source: string, dir: string, items: seq<Component>, got: Collected,
    item: Component, r: ImageReceipt)
    requires Gathered(rules, t, c, source, dir, items, got) && ImageReady(rules, t, c, source, dir, item)
    requires ImageAt(t, ReceiptPath(dir, item.service)) == Some(r)
    ensures ImagesReady(rules, t, c, source, dir, items + [item])
    ensures ImagesOf(rules, t, c, source, dir, items + [item]) == got.images + [r]
    ensures NotMixed(got.images + [r]) <==> got.images == [] || got.images[0].published == r.published
    ensures NotMixed(got.images + [r]) ==>
      Gathered(rules, t, c, source, dir, items + [item],
               Collected(got.images + [r], got.published && r.published, got.environment[item.imageEnv := Reference(r)]))
  {
    hide *;
    GatheredAll(rules, t, c, source, dir, items, got);
    ReadyOne(rules, t, c, source, dir, items, item);
    var images := got.images;
    PublishedOne(images, r);
    EnvironmentOne(items, images, item, r);
    if NotMixed(images + [r]) {
      GatheredIf(rules, t, c, source, dir, items + [item],
                 Collected(images + [r], got.published && r.published, got.environment[item.imageEnv := Reference(r)]));
    }
  }

  lemma EnvironmentOne(items: seq<Component>, images: seq<ImageReceipt>, item: Component, r: ImageReceipt)
    requires |images| == |items|
    ensures Environment(items + [item], images + [r]) == Environment(items, images)[item.imageEnv := Reference(r)]
  {
    hide Reference;
    assert (items + [item])[..|items|] == items && (images + [r])[..|images|] == images;
  }

  lemma GatheredIf(
    rules: Rules, t: Tree, c: Catalog, source: string, dir: string, items: seq<Component>, got: Collected)
    requires ImagesReady(rules, t, c, source, dir, items) && got.images == ImagesOf(rules, t, c, source, dir, items)
    requires NotMixed(got.images) && got.published == AllPublished(got.images)
    requires got.environment == Environment(items, got.images)
    ensures Gathered(rules, t, c, source, dir, items, got)
  {
    hide ImagesReady;
    hide ImagesOf;
    hide NotMixed;
    hide AllPublished;
    hide Environment;
  }

  lemma PublishedOne(images: seq<ImageReceipt>, r: ImageReceipt)
    requires NotMixed(images)
    ensures NotMixed(images + [r]) <==> images == [] || images[0].published == r.published
    ensures AllPublished(images + [r]) <==> AllPublished(images) && r.published
  {
    var all := images + [r];
    assert all[|images|] == r && forall i :: 0 <= i < |images| ==> all[i] == images[i];
  }

  /** Reads the image receipts in catalog order. */
  method CollectImages(rules: Rules, t: Tree, c: Catalog, source: string, dir: string) returns (r: Option<Collected>)
    ensures r.Some? <==>
      && ImagesReady(rules, t, c, source, dir, c.components)
      && NotMixed(ImagesOf(rules, t, c, source, dir, c.components))
    ensures r.Some? ==>
      var images := ImagesOf(rules, t, c, source, dir, c.components);
      r.value == Collected(images, AllPublished(images), Environment(c.components, images))
  {
    hide *;
    var items, sha := c.components, CatalogSha(rules, t);
    var got := Collected([], true, map[]);
    GatherNothing(rules, t, c, source, dir);
    for i := 0 to |items|
      invariant Gathered(rules, t, c, source, dir, items[..i], got)
    {
      var item := items[i];
      var receipt := ImageAt(t, ReceiptPath(dir, item.service));
      ImageReadyParts(rules, t, c, source, dir, item);
      if receipt.None? || receipt.value.sourceSha != source || receipt.value.catalogSha != sha || receipt.value.service != item.service {
        NotReady(rules, t, c, source, dir, items, i);
        return None;
      }
      var ok := NewImage(rules, c, sha, receipt.value);
      if !ok {
        NotReady(rules, t, c, source, dir, items, i);
        return None;
      }
      assert items[..i + 1] == items[..i] + [item];
      GatherOne(rules, t, c, source, dir, items[..i], got, item, receipt.value);
      if got.images != [] && got.images[0].published != receipt.value.published {
        Mixed(rules, t, c, source, dir, items, i);
        return None;
      }
      got := Collected(got.images + [receipt.value], got.published && receipt.value.published,
                       got.environment[item.imageEnv := Reference(receipt.value)]);
    }
    assert items[..|items|] == items;
    GatheredAll(rules, t, c, source, dir, items, got);
    return Some(got);
  }

  lemma GatheredAll(
    rules: Rules, t: Tree, c: Catalog, source: string, dir: string, items: seq<Component>, got: Collected)
    requires Gathered(rules, t, c, source, dir, items, got)
    ensures ImagesReady(rules, t, c, source, dir, items)
    ensures var images := ImagesOf(rules, t, c, source, dir, items);
      NotMixed(images) && got == Collected(images, AllPublished(images), Environment(items, images))
  {
  }

  lemma ImageReadyParts(rules: Rules, t: Tree, c: Catalog, source: string, dir: string, item: Component)
    ensures var r, sha := ImageAt(t, ReceiptPath(dir, item.service)), CatalogSha(rules, t);
      ImageReady(rules, t, c, source, dir, item) <==>
        && r.Some? && r.value.sourceSha == source && r.value.catalogSha == sha && r.value.service == item.service
        && ImageOk(rules, c, sha, r.value)
  {
    hide ImageOk;
  }

  lemma NotReady(rules: Rules, t: Tree, c: Catalog, source: string, dir: string, items: seq<Component>, i: nat)
    requires i < |items| && !ImageReady(rules, t, c, source, dir, items[i])
    ensures !ImagesReady(rules, t, c, source, dir, items)
  {
  }

  /** A prefix that is already mixed stays mixed. */
  lemma Mixed(rules: Rules, t: Tree, c: Catalog, source: string, dir: string, items: seq<Component>, i: nat)
    requires i < |items| && ImagesReady(rules, t, c, source, dir, items[..i + 1])
    requires !NotMixed(ImagesOf(rules, t, c, source, dir, items[..i + 1]))
    ensures ImagesReady(rules, t, c, source, dir, items) ==> !NotMixed(ImagesOf(rules, t, c, source, dir, items))
  {
    if ImagesReady(rules, t, c, source, dir, items) {
      ImagesPrefix(rules, t, c, source, dir, items, i + 1);
    }
  }

  lemma {:induction false} ImagesPrefix(
    rules: Rules, t: Tree, c: Catalog, source: string, dir: string, items: seq<Component>, k: nat)
    requires ImagesReady(rules, t, c, source, dir, items) && k <= |items|
    ensures ImagesOf(rules, t, c, source, dir, items[..k]) == ImagesOf(rules, t, c, source, dir, items)[..k]
  {
    hide ImageReady;
    if k < |items| {
      var prior := items[..|items| - 1];
      ImagesPrefix(rules, t, c, source, dir, prior, k);
      assert prior[..k] == items[..k];
    } else {
      assert items[..k] == items;
    }
  }

  ghost predicate ChecksReady(rules: Rules, t: Tree, source: string, dir: string, kinds: seq<string>) {
    forall i :: 0 <= i < |kinds| ==> CheckReady(rules, t, source, dir, kinds[i])
  }

  ghost predicate CheckReady(rules: Rules, t: Tree, source: string, dir: string, kind: string) {
    var r := CheckAt(t, ReceiptPath(dir, kind));
    r.Some? && CheckOk(rules, source, kind, r.value)
  }

  ghost function ChecksOf(rules: Rules, t: Tree, source: string, dir: string, kinds: seq<string>): (s: seq<CheckReceipt>)
    requires ChecksReady(rules, t, source, dir, kinds)
    ensures |s| == |kinds|
  {
    seq(|kinds|, i requires 0 <= i < |kinds| =>
      assert CheckReady(rules, t, source, dir, kinds[i]);
      CheckAt(t, ReceiptPath(dir, kinds[i])).value)
  }

  method CollectChecks(rules: Rules, t: Tree, source: string, dir: string, kinds: seq<string>) returns (r: Option<seq<CheckReceipt>>)
    ensures r.Some? <==> ChecksReady(rules, t, source, dir, kinds)
    ensures r.Some? ==> r.value == ChecksOf(rules, t, source, dir, kinds)
  {
    hide ReceiptPath;
    hide CheckOk;
    var checks: seq<CheckReceipt> := [];
    for i := 0 to |kinds|
      invariant |checks| == i
      invariant forall j :: 0 <= j < i ==>
        CheckReady(rules, t, source, dir, kinds[j]) && checks[j] == CheckAt(t, ReceiptPath(dir, kinds[j])).value
    {
      var receipt := CheckAt(t, ReceiptPath(dir, kinds[i]));
      if receipt.None? || !CheckOk(rules, source, kinds[i], receipt.value) {
        assert !CheckReady(rules, t, source, dir, kinds[i]);
        return None;
      }
      checks := checks + [receipt.value];
    }
    return Some(checks);
  }

  /** The sorted listing of a catalog's inputs, and a migration pattern that no empty path matches. */
  ghost predicate Lists(rules: Rules, t: Tree, inputs: Catalog -> seq<string>) {
    && !rules.migration("")
    && forall c :: Grouped(inputs(c)) && forall p :: p in inputs(c) <==> p in InputPaths(rules, t, c)
  }

  lemma NoEmptyInput(rules: Rules, t: Tree, c: Catalog)
    requires !rules.migration("") && CatalogOk(rules, t) && CatalogIn(t) == Some(c)
    ensures "" !in InputPaths(rules, t, c)
  {
    assert forall i :: 0 <= i < |c.components| ==> ComponentOk(rules, t, c.components[i]);
  }

  lemma ListsInputs(rules: Rules, t: Tree, inputs: Catalog -> seq<string>, c: Catalog)
    requires Lists(rules, t, inputs) && CatalogOk(rules, t) && CatalogIn(t) == Some(c)
    ensures Grouped(inputs(c)) && "" !in inputs(c) && forall p :: p in inputs(c) <==> p in InputPaths(rules, t, c)
  {
    hide Grouped;
    hide InputPaths;
    NoEmptyInput(rules, t, c);
  }

  /** What a tree must hold for a manifest to be assembled. */
  ghost predicate Assemblable(rules: Rules, t: Tree, source: string, imageDir: string, checkDir: string) {
    && CatalogOk(rules, t) && rules.source(source)
    && var c := CatalogIn(t).value;
       && HoldsExactly(rules, t, imageDir, Services(c.components))
       && HoldsExactly(rules, t, checkDir, RequiredChecks())
       && ImagesReady(rules, t, c, source, imageDir, c.components)
       && NotMixed(ImagesOf(rules, t, c, source, imageDir, c.components))
       && ChecksReady(rules, t, source, checkDir, RequiredChecks())
       && InputsReadable(rules, t, c)
  }

  ghost function Assembled(rules: Rules, t: Tree, source: string, imageDir: string, checkDir: string): Manifest
    requires Assemblable(rules, t, source, imageDir, checkDir)
  {
    var c := CatalogIn(t).value;
    var images := ImagesOf(rules, t, c, source, imageDir, c.components);
    Manifest(1, source, CatalogSha(rules, t), AllPublished(images), false, images,
             ChecksOf(rules, t, source, checkDir, RequiredChecks()), Sorted(Snapshot(rules, t, c)),
             Environment(c.components, images))
  }

  /** Builds the manifest, or fails exactly when the tree is not ready. */
  method Assemble(
    rules: Rules, t: Tree, source: string, imageDir: string, checkDir: string,
    list: string -> set<string>, inputs: Catalog -> seq<string>, migrations: nat)
    returns (r: Option<Manifest>)
    requires forall d :: list(d) == Children(rules, t, d)
    requires migrations == |Migrations(rules, t)| && Lists(rules, t, inputs)
    ensures r.Some? <==> Assemblable(rules, t, source, imageDir, checkDir)
    ensures r.Some? ==> r.value == Assembled(rules, t, source, imageDir, checkDir)
  {
    hide *;
    AssemblableParts(rules, t, source, imageDir, checkDir);
    var catalog := Load(rules, t);
    if catalog.None? || !rules.source(source) {
      return None;
    }
    var c := catalog.value;
    var imagesExact := ExactFiles(rules, t, imageDir, Services(c.components), list(imageDir));
    if !imagesExact {
      return None;
    }
    var checksExact := ExactFiles(rules, t, checkDir, RequiredChecks(), list(checkDir));
    if !checksExact {
      return None;
    }
    var images := CollectImages(rules, t, c, source, imageDir);
    if images.None? {
      return None;
    }
    var checks := CollectChecks(rules, t, source, checkDir, RequiredChecks());
    if checks.None? {
      return None;
    }
    ListsInputs(rules, t, inputs, c);
    var snapshot := SnapshotInputs(rules, t, c, inputs(c), migrations);
    if snapshot.None? {
      return None;
    }
    AssembledParts(rules, t, source, imageDir, checkDir);
    return Some(Manifest(1, source, CatalogSha(rules, t), images.value.published, false, images.value.images,
                         checks.value, Sorted(AsMap(snapshot.value)), images.value.environment));
  }

  lemma AssemblableParts(rules: Rules, t: Tree, source: string, imageDir: string, checkDir: string)
    ensures CatalogOk(rules, t) ==> CatalogIn(t).Some?
    ensures Assemblable(rules, t, source, imageDir, checkDir) <==>
      && CatalogOk(rules, t) && rules.source(source)
      && var c := CatalogIn(t).value;
         && HoldsExactly(rules, t, imageDir, Services(c.components))
         && HoldsExactly(rules, t, checkDir, RequiredChecks())
         && ImagesReady(rules, t, c, source, imageDir, c.components)
         && NotMixed(ImagesOf(rules, t, c, source, imageDir, c.components))
         && ChecksReady(rules, t, source, checkDir, RequiredChecks())
         && InputsReadable(rules, t, c)
  {
  }

  lemma AssembledParts(rules: Rules, t: Tree, source: string, imageDir: string, checkDir: string)
    requires Assemblable(rules, t, source, imageDir, checkDir)
    ensures var m, c := Assembled(rules, t, source, imageDir, checkDir), CatalogIn(t).value;
      var images := ImagesOf(rules, t, c, source, imageDir, c.components);
      && m == Manifest(1, source, CatalogSha(rules, t), AllPublished(images), false, images,
                       ChecksOf(rules, t, source, checkDir, RequiredChecks()), Sorted(Snapshot(rules, t, c)),
                       Environment(c.components, images))
  {
  }

  // ---- Verifying ----

  function ManifestAt(t: Tree, path: string): Option<Manifest> {
    var c := Read(t, path);
    if c.Some? && c.value.ManifestText? then Some(c.value.manifest) else None
  }

  /** The recorded images are this release's, in catalog order, and uniformly published or not. */
  ghost predicate ImagesMatch(rules: Rules, t: Tree, c: Catalog, m: Manifest) {
    |m.images| == |c.components| && forall i :: 0 <= i < |m.images| ==>
      && ReceiptOk(rules, c, CatalogSha(rules, t), m.sourceSha, c.components[i], m.images[i])
      && m.images[i].published == m.imagesPublished
  }

  ghost predicate ChecksMatch(rules: Rules, m: Manifest) {
    |m.checks| == |RequiredChecks()| && forall i :: 0 <= i < |m.checks| ==>
      CheckOk(rules, m.sourceSha, RequiredChecks()[i], m.checks[i])
  }

  /** What verification accepts, said about the manifest and the tree as a whole. */
  ghost predicate Accepts(rules: Rules, t: Tree, path: string, requirePublished: bool) {
    && ManifestAt(t, path).Some? && CatalogOk(rules, t)
    && var m, c := ManifestAt(t, path).value, CatalogIn(t).value;
       && m.version == 1 && rules.source(m.sourceSha) && m.catalogSha == CatalogSha(rules, t)
       && !m.deploymentAccepted && (requirePublished ==> m.imagesPublished)
       && ImagesMatch(rules, t, c, m) && ChecksMatch(rules, m)
       && InputsReadable(rules, t, c) && m.inputs == Sorted(Snapshot(rules, t, c))
       && m.environment == Environment(c.components, m.images)
  }

  ghost predicate ImageMatches(rules: Rules, sha: string, c: Catalog, m: Manifest, i: nat)
    requires i < |m.images| == |c.components|
  {
    ReceiptOk(rules, c, sha, m.sourceSha, c.components[i], m.images[i]) && m.images[i].published == m.imagesPublished
  }

  lemma ImagesMatchEach(rules: Rules, t: Tree, c: Catalog, m: Manifest)
    requires |m.images| == |c.components|
    ensures ImagesMatch(rules, t, c, m) <==>
            forall i :: 0 <= i < |c.components| ==> ImageMatches(rules, CatalogSha(rules, t), c, m, i)
  {
    hide ReceiptOk;
    hide CatalogSha;
    if forall i :: 0 <= i < |c.components| ==> ImageMatches(rules, CatalogSha(rules, t), c, m, i) {
      forall i | 0 <= i < |m.images|
        ensures ReceiptOk(rules, c, CatalogSha(rules, t), m.sourceSha, c.components[i], m.images[i])
                && m.images[i].published == m.imagesPublished
      {
        assert ImageMatches(rules, CatalogSha(rules, t), c, m, i);
      }
    }
  }

  lemma EnvironmentSnoc(items: seq<Component>, images: seq<ImageReceipt>, i: nat)
    requires |images| == |items| && i < |items|
    ensures Environment(items[..i + 1], images[..i + 1]) ==
            Environment(items[..i], images[..i])[items[i].imageEnv := Reference(images[i])]
  {
    hide Reference;
    assert items[..i + 1][..i] == items[..i] && images[..i + 1][..i] == images[..i];
  }

  method MatchImages(rules: Rules, t: Tree, c: Catalog, m: Manifest) returns (r: Option<map<string, string>>)
    requires |m.images| == |c.components|
    ensures r.Some? <==> ImagesMatch(rules, t, c, m)
    ensures r.Some? ==> r.value == Environment(c.components, m.images)
  {
    hide ImageOk;
    hide CatalogSha;
    hide Reference;
    hide ImagesMatch;
    ImagesMatchEach(rules, t, c, m);
    var items, sha := c.components, CatalogSha(rules, t);
    var environment: map<string, string> := map[];
    for i := 0 to |items|
      invariant environment == Environment(items[..i], m.images[..i])
      invariant forall j :: 0 <= j < i ==> ImageMatches(rules, sha, c, m, j)
    {
      hide Environment;
      var receipt := m.images[i];
      EnvironmentSnoc(items, m.images, i);
      if receipt.service != items[i].service || receipt.sourceSha != m.sourceSha || receipt.catalogSha != sha
         || receipt.published != m.imagesPublished {
        assert !ImageMatches(rules, sha, c, m, i);
        return None;
      }
      var ok := NewImage(rules, c, sha, receipt);
      if !ok {
        assert !ImageMatches(rules, sha, c, m, i);
        return None;
      }
      environment := environment[items[i].imageEnv := Reference(receipt)];
    }
    assert items[..|items|] == items && m.images[..|items|] == m.images;
    return Some(environment);
  }

  method MatchChecks(rules: Rules, m: Manifest, kinds: seq<string>) returns (ok: bool)
    requires kinds == RequiredChecks() && |m.checks| == |kinds|
    ensures ok <==> ChecksMatch(rules, m)
  {
    hide CheckOk;
    hide RequiredChecks;
    for i := 0 to |kinds|
      invariant forall j :: 0 <= j < i ==> CheckOk(rules, m.sourceSha, kinds[j], m.checks[j])
    {
      if !CheckOk(rules, m.sourceSha, kinds[i], m.checks[i]) {
        return false;
      }
    }
    return true;
  }

  /** Checks a manifest against the tree as it is now. */
  method Verify(
    rules: Rules, t: Tree, path: string, requirePublished: bool, inputs: Catalog -> seq<string>, migrations: nat)
    returns (r: Option<Manifest>)
    requires migrations == |Migrations(rules, t)| && Lists(rules, t, inputs)
    ensures r.Some? <==> Accepts(rules, t, path, requirePublished)
    ensures r.Some? ==> r == ManifestAt(t, path)
  {
    hide *;
    AcceptsParts(rules, t, path, requirePublished);
    var manifest := ManifestAt(t, path);
    if manifest.None? {
      return None;
    }
    var catalog := Load(rules, t);
    if catalog.None? {
      return None;
    }
    var m, c := manifest.value, catalog.value;
    if m.version != 1 || !rules.source(m.sourceSha) || m.catalogSha != CatalogSha(rules, t) || m.deploymentAccepted
       || |m.images| != |c.components| || |m.checks| != |RequiredChecks()| {
      return None;
    }
    if requirePublished && !m.imagesPublished {
      return None;
    }
    var environment := MatchImages(rules, t, c, m);
    if environment.None? {
      return None;
    }
    var checksOk := MatchChecks(rules, m, RequiredChecks());
    if !checksOk {
      return None;
    }
    ListsInputs(rules, t, inputs, c);
    var snapshot := SnapshotInputs(rules, t, c, inputs(c), migrations);
    if snapshot.None? || m.inputs != Sorted(AsMap(snapshot.value)) || m.environment != environment.value {
      return None;
    }
    return manifest;
  }

  lemma AcceptsParts(rules: Rules, t: Tree, path: string, requirePublished: bool)
    ensures CatalogOk(rules, t) ==> CatalogIn(t).Some?
    ensures Accepts(rules, t, path, requirePublished) <==>
      && ManifestAt(t, path).Some? && CatalogOk(rules, t)
      && var m, c := ManifestAt(t, path).value, CatalogIn(t).value;
         && m.version == 1 && rules.source(m.sourceSha) && m.catalogSha == CatalogSha(rules, t)
         && !m.deploymentAccepted && (requirePublished ==> m.imagesPublished)
         && |m.images| == |c.components| && |m.checks| == |RequiredChecks()|
         && ImagesMatch(rules, t, c, m) && ChecksMatch(rules, m)
         && InputsReadable(rules, t, c) && m.inputs == Sorted(Snapshot(rules, t, c))
         && m.environment == Environment(c.components, m.images)
  {
    hide RequiredChecks;
    hide InputsReadable;
    hide CatalogOk;
    if CatalogOk(rules, t) {
      HasCatalog(rules, t);
    }
  }

  lemma HasCatalog(rules: Rules, t: Tree)
    requires CatalogOk(rules, t)
    ensures CatalogIn(t).Some?
  {
  }
}
