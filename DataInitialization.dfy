/** Start-up reconciliation of the catalogue with a bundled backup: which
    backup categories and products are missing, whether to restore, how old
    category ids map to the recreated ones, which products are recreated, how
    a backup image list is parsed, and the once-per-process guard. */
module DataInitialization {
  import opened Wrappers
  import opened Seqs
  import opened Text
  import opened ProductModel

  /** A category as the backup file lists it. */
  datatype BackupCategory = BackupCategory(id: int, slug: string, name: string, image: string)

  /** A product as the backup file lists it: images as one comma-separated
      string, the category as the string form of an old category id. */
  datatype BackupProduct = BackupProduct(
    id: int,
    title: string,
    description: string,
    price: int,
    images: string,
    categoryId: string,
    slug: string)

  datatype InitResult = InitResult(success: bool, message: string)

  const PlaceholderImage: string := "https://via." + "placeholder.com/" + "300x200/EFEFEF/" + "666666?text=" + "No+Image"
  const InProgressMessage := "Initialization in progress"
  const AlreadyCompletedMessage := "Initialization already completed"
  const HealthyMessage := "Database is healthy"
  const RestoreFailedMessage := "Не удалось восстановить данные"
  /** The entry both missing lists hold when the check itself fails. */
  const AllMissing := "All"

  // ---------------------------------------------------------------- missing items

  /** `current.some(c => c.toLowerCase() === name.toLowerCase())`. */
  predicate HasIgnoreCase(current: seq<string>, name: string) {
    exists i :: 0 <= i < |current| && EqualsIgnoreCase(current[i], name)
  }

  /** The backup names, in backup order, that have no case-insensitively equal current name. */
  function MissingNames(backup: seq<string>, current: seq<string>): (r: seq<string>)
    ensures |r| <= |backup|
    ensures forall i :: 0 <= i < |r| ==> r[i] in backup && !HasIgnoreCase(current, r[i])
    ensures forall j :: 0 <= j < |backup| && !HasIgnoreCase(current, backup[j]) ==> backup[j] in r
  {
    Filter((n: string) => !HasIgnoreCase(current, n), backup)
  }

  /** Missing names keep the backup's order. */
  lemma MissingNamesInOrder(backup: seq<string>, current: seq<string>)
    ensures IsSubsequence(MissingNames(backup, current), backup)
  {
    FilterIsSubsequence((n: string) => !HasIgnoreCase(current, n), backup);
  }

  /** Nothing is missing from a catalogue that already has every backup name,
      and against an empty catalogue everything is. */
  lemma MissingNamesExtremes(backup: seq<string>, current: seq<string>)
    ensures (forall j :: 0 <= j < |backup| ==> HasIgnoreCase(current, backup[j])) ==> MissingNames(backup, current) == []
    ensures current == [] ==> MissingNames(backup, current) == backup
  {
    var r := MissingNames(backup, current);
    if current == [] {
      FilterKeepsAll((n: string) => !HasIgnoreCase(current, n), backup);
    } else if r != [] {
      assert r[0] in backup;
    }
  }

  lemma MissingNamesSnoc(backup: seq<string>, current: seq<string>, n: string)
    ensures MissingNames(backup + [n], current) ==
      MissingNames(backup, current) + (if HasIgnoreCase(current, n) then [] else [n])
  {
    FilterSnoc((m: string) => !HasIgnoreCase(current, m), backup, n);
  }

  function CategoryNames(cs: seq<BackupCategory>): (r: seq<string>)
    ensures |r| == |cs| && forall i :: 0 <= i < |cs| ==> r[i] == cs[i].name
  {
    MapSeq((c: BackupCategory) => c.name, cs)
  }

  function ProductTitles(ps: seq<BackupProduct>): (r: seq<string>)
    ensures |r| == |ps| && forall i :: 0 <= i < |ps| ==> r[i] == ps[i].title
  {
    MapSeq((p: BackupProduct) => p.title, ps)
  }

  function CurrentCategoryNames(cs: seq<Category>): (r: seq<string>)
    ensures |r| == |cs| && forall i :: 0 <= i < |cs| ==> r[i] == cs[i].name
  {
    MapSeq((c: Category) => c.name, cs)
  }

  function CurrentProductTitles(ps: seq<Product>): (r: seq<string>)
    ensures |r| == |ps| && forall i :: 0 <= i < |ps| ==> r[i] == ps[i].title
  {
    MapSeq((p: Product) => p.title, ps)
  }

  /** `findMissingCategories`: backup category names, in order, with no
      current category of the same name up to case. */
  method FindMissingCategories(backup: seq<BackupCategory>, current: seq<Category>) returns (missing: seq<string>)
    ensures missing == MissingNames(CategoryNames(backup), CurrentCategoryNames(current))
  {
    var names := CurrentCategoryNames(current);
    missing := [];
    var i := 0;
    while i < |backup|
      invariant 0 <= i <= |backup|
      invariant missing == MissingNames(CategoryNames(backup[..i]), names)
    {
      var exists_ := false;
      var j := 0;
      while j < |current|
        invariant 0 <= j <= |current|
        invariant exists_ <==> exists k :: 0 <= k < j && EqualsIgnoreCase(names[k], backup[i].name)
      {
        if Lower(current[j].name) == Lower(backup[i].name) {
          exists_ := true;
        }
        j := j + 1;
      }
      assert CategoryNames(backup[..i + 1]) == CategoryNames(backup[..i]) + [backup[i].name];
      MissingNamesSnoc(CategoryNames(backup[..i]), names, backup[i].name);
      if !exists_ {
        missing := missing + [backup[i].name];
      }
      i := i + 1;
    }
    assert backup[..|backup|] == backup;
  }

  /** `findMissingProducts`: backup product titles, in order, with no current
      product of the same title up to case. */
  method FindMissingProducts(backup: seq<BackupProduct>, current: seq<Product>) returns (missing: seq<string>)
    ensures missing == MissingNames(ProductTitles(backup), CurrentProductTitles(current))
  {
    var titles := CurrentProductTitles(current);
    missing := [];
    var i := 0;
    while i < |backup|
      invariant 0 <= i <= |backup|
      invariant missing == MissingNames(ProductTitles(backup[..i]), titles)
    {
      var exists_ := false;
      var j := 0;
      while j < |current|
        invariant 0 <= j <= |current|
        invariant exists_ <==> exists k :: 0 <= k < j && EqualsIgnoreCase(titles[k], backup[i].title)
      {
        if Lower(current[j].title) == Lower(backup[i].title) {
          exists_ := true;
        }
        j := j + 1;
      }
      assert ProductTitles(backup[..i + 1]) == ProductTitles(backup[..i]) + [backup[i].title];
      MissingNamesSnoc(ProductTitles(backup[..i]), titles, backup[i].title);
      if !exists_ {
        missing := missing + [backup[i].title];
      }
      i := i + 1;
    }
    assert backup[..|backup|] == backup;
  }

  // ---------------------------------------------------------------- restore decision

  datatype CheckResult = CheckResult(needsRestore: bool, missingCategories: seq<string>, missingProducts: seq<string>)

  /** `checkDatabaseState`, given what the two reads returned (a failed read
      counts as an empty list) or `None` when the check itself failed. */
  function CheckDatabaseState(
    backupCategories: seq<BackupCategory>, backupProducts: seq<BackupProduct>,
    current: Option<(seq<Category>, seq<Product>)>): (r: CheckResult)
    ensures current.None? ==> r == CheckResult(true, [AllMissing], [AllMissing])
    ensures current.Some? ==>
      r.missingCategories == MissingNames(CategoryNames(backupCategories), CurrentCategoryNames(current.value.0)) &&
      r.missingProducts == MissingNames(ProductTitles(backupProducts), CurrentProductTitles(current.value.1))
    ensures r.needsRestore <==> r.missingCategories != [] || r.missingProducts != []
  {
    match current
    case None => CheckResult(true, [AllMissing], [AllMissing])
    case Some((cats, prods)) =>
      var mc := MissingNames(CategoryNames(backupCategories), CurrentCategoryNames(cats));
      var mp := MissingNames(ProductTitles(backupProducts), CurrentProductTitles(prods));
      CheckResult(|mc| > 0 || |mp| > 0, mc, mp)
  }

  /** Restore is needed exactly when some backup category or product has no
      counterpart up to case. */
  lemma RestoreDecision(
    backupCategories: seq<BackupCategory>, backupProducts: seq<BackupProduct>,
    cats: seq<Category>, prods: seq<Product>)
    ensures CheckDatabaseState(backupCategories, backupProducts, Some((cats, prods))).needsRestore <==>
      (exists j :: 0 <= j < |backupCategories| && !HasIgnoreCase(CurrentCategoryNames(cats), backupCategories[j].name)) ||
      (exists j :: 0 <= j < |backupProducts| && !HasIgnoreCase(CurrentProductTitles(prods), backupProducts[j].title))
  {
    var cn := CategoryNames(backupCategories);
    var pn := ProductTitles(backupProducts);
    var mc := MissingNames(cn, CurrentCategoryNames(cats));
    var mp := MissingNames(pn, CurrentProductTitles(prods));
    if mc != [] {
      assert mc[0] in cn;
    }
    if mp != [] {
      assert mp[0] in pn;
    }
  }

  /** So with both reads failed (empty lists) restore is needed exactly when
      the backup is not empty. */
  lemma RestoreDecisionOnEmpty(backupCategories: seq<BackupCategory>, backupProducts: seq<BackupProduct>)
    ensures CheckDatabaseState(backupCategories, backupProducts, Some(([], []))).needsRestore <==>
      backupCategories != [] || backupProducts != []
  {
    MissingNamesExtremes(CategoryNames(backupCategories), CurrentCategoryNames([]));
    MissingNamesExtremes(ProductTitles(backupProducts), CurrentProductTitles([]));
  }

  // ---------------------------------------------------------------- category id mapping

  /** The create request for a backup category: its name, and its image or
      the placeholder when it has none, so the image is never empty. */
  function CategoryRequest(c: BackupCategory): (d: CategoryUpdateDto)
    ensures d.name == c.name
    ensures c.image != "" ==> d.image == c.image
    ensures c.image == "" ==> d.image == PlaceholderImage
    ensures d.image != ""
  {
    CategoryUpdateDto(c.name, if c.image != "" then c.image else PlaceholderImage)
  }

  /** The mapping key of a backup category: its id in decimal. */
  function Key(c: BackupCategory): string {
    IntToString(c.id)
  }

  /** The categories whose creation succeeded, in request order (`filter(Boolean)`). */
  function Successful(created: seq<Option<Category>>): (r: seq<Category>)
    ensures |r| <= |created|
    decreases |created|
  {
    if created == [] then []
    else (if created[0].Some? then [created[0].value] else []) + Successful(created[1..])
  }

  /** The mapping exactly as `createNewCategories` builds it: the `i`-th backup
      category is paired with the `i`-th *successful* creation. */
  function MappingAsWritten(backup: seq<BackupCategory>, successful: seq<Category>): (m: map<string, int>)
    decreases |backup|
  {
    if backup == [] then map[]
    else
      var i := |backup| - 1;
      var prev := MappingAsWritten(backup[..i], successful);
      if i < |successful| then prev[Key(backup[i]) := successful[i].id] else prev
  }

  /** The loop of `createNewCategories` over the creation results. */
  method CreateCategoryMapping(backup: seq<BackupCategory>, created: seq<Option<Category>>) returns (m: map<string, int>)
    ensures m == MappingAsWritten(backup, Successful(created))
  {
    var successful := Successful(created);
    m := map[];
    var i := 0;
    while i < |backup|
      invariant 0 <= i <= |backup|
      invariant m == MappingAsWritten(backup[..i], successful)
    {
      assert backup[..i + 1][..i] == backup[..i];
      if i < |successful| {
        m := m[Key(backup[i]) := successful[i].id];
      }
      i := i + 1;
    }
    assert backup[..|backup|] == backup;
  }

  /** The mapping has at most one key per paired index, so no more keys than
      backup categories or successful creations. */
  lemma {:induction false} MappingAsWrittenSize(backup: seq<BackupCategory>, successful: seq<Category>)
    ensures |MappingAsWritten(backup, successful).Keys| <= Min(|backup|, |successful|)
    decreases |backup|
  {
    if backup != [] {
      var i := |backup| - 1;
      MappingAsWrittenSize(backup[..i], successful);
      var prev := MappingAsWritten(backup[..i], successful);
      if i < |successful| {
        var k := Key(backup[i]);
        assert prev[k := successful[i].id].Keys == prev.Keys + {k};
        if k in prev.Keys {
          assert prev.Keys + {k} == prev.Keys;
        }
      }
    }
  }

  /** The misalignment: of three backup categories (ids 1, 2, 3) whose
      creations succeed, fail and succeed (new ids 11 and 13), the one that
      failed, id 2, is mapped to the third category's new id 13, and id 3 is
      not mapped at all. */
  lemma MappingAsWrittenMisaligns()
    ensures var backup := [BackupCategory(1, "a", "A", ""), BackupCategory(2, "b", "B", ""), BackupCategory(3, "c", "C", "")];
      var created := [Some(Category(11, "A", "a", "")), None, Some(Category(13, "C", "c", ""))];
      var m := MappingAsWritten(backup, Successful(created));
      created[1].None? && "2" in m && m["2"] == 13 && "3" !in m
  {
    var backup := [BackupCategory(1, "a", "A", ""), BackupCategory(2, "b", "B", ""), BackupCategory(3, "c", "C", "")];
    var created := [Some(Category(11, "A", "a", "")), None, Some(Category(13, "C", "c", ""))];
    var s := [Category(11, "A", "a", ""), Category(13, "C", "c", "")];
    assert Successful(created[2..]) == [s[1]];
    assert Successful(created[1..]) == [s[1]];
    assert Successful(created) == s;
    assert Key(backup[0]) == "1" && Key(backup[1]) == "2" && Key(backup[2]) == "3";
    assert backup[..2][..1] == backup[..1] && backup[..1][..0] == [];
    assert MappingAsWritten(backup[..0], s) == map[];
    var m1 := MappingAsWritten(backup[..1], s);
    assert m1 == map[][Key(backup[0]) := 11];
    assert m1 == map["1" := 11];
    var m2 := MappingAsWritten(backup[..2], s);
    assert m2 == map["1" := 11, "2" := 13];
    assert MappingAsWritten(backup, s) == m2;
  }

  /** The evidently intended mapping: each backup category is paired with the
      result of its own creation request, and only successes are mapped. */
  function CategoryMapping(backup: seq<BackupCategory>, created: seq<Option<Category>>): (m: map<string, int>)
    requires |created| == |backup|
    decreases |backup|
  {
    if backup == [] then map[]
    else
      var i := |backup| - 1;
      var prev := CategoryMapping(backup[..i], created[..i]);
      if created[i].Some? then prev[Key(backup[i]) := created[i].value.id] else prev
  }

  /** With distinct backup ids, every successfully recreated category is mapped
      to its own new id, and every mapped key belongs to a successful creation. */
  lemma {:induction false} CategoryMappingAligned(backup: seq<BackupCategory>, created: seq<Option<Category>>)
    requires |created| == |backup|
    requires forall a, b :: 0 <= a < b < |backup| ==> backup[a].id != backup[b].id
    ensures forall i :: 0 <= i < |backup| && created[i].Some? ==>
      Key(backup[i]) in CategoryMapping(backup, created) && CategoryMapping(backup, created)[Key(backup[i])] == created[i].value.id
    ensures forall k :: k in CategoryMapping(backup, created) ==>
      exists i :: 0 <= i < |backup| && created[i].Some? && Key(backup[i]) == k
    decreases |backup|
  {
    if backup != [] {
      var n := |backup| - 1;
      CategoryMappingAligned(backup[..n], created[..n]);
      forall i | 0 <= i < n
        ensures Key(backup[i]) != Key(backup[n])
      {
        IntToStringInjective(backup[i].id, backup[n].id);
      }
    }
  }

  /** When every creation succeeds the written mapping and the intended one agree. */
  lemma {:induction false} MappingsAgreeWithoutFailures(backup: seq<BackupCategory>, created: seq<Option<Category>>)
    requires |created| == |backup|
    requires forall i :: 0 <= i < |created| ==> created[i].Some?
    ensures MappingAsWritten(backup, Successful(created)) == CategoryMapping(backup, created)
    decreases |backup|
  {
    if backup != [] {
      var n := |backup| - 1;
      AllSuccessful(created);
      MappingsAgreeWithoutFailures(backup[..n], created[..n]);
      AllSuccessful(created[..n]);
      MappingAsWrittenPrefix(backup[..n], Successful(created[..n]), Successful(created));
    }
  }

  lemma {:induction false} AllSuccessful(created: seq<Option<Category>>)
    requires forall i :: 0 <= i < |created| ==> created[i].Some?
    ensures |Successful(created)| == |created|
    ensures forall i :: 0 <= i < |created| ==> Successful(created)[i] == created[i].value
    decreases |created|
  {
    if created != [] {
      AllSuccessful(created[1..]);
    }
  }

  /** The written mapping only looks at the first `|backup|` successes. */
  lemma {:induction false} MappingAsWrittenPrefix(backup: seq<BackupCategory>, s1: seq<Category>, s2: seq<Category>)
    requires |backup| <= |s1| <= |s2|
    requires forall i :: 0 <= i < |s1| ==> s1[i] == s2[i]
    ensures MappingAsWritten(backup, s1) == MappingAsWritten(backup, s2)
    decreases |backup|
  {
    if backup != [] {
      MappingAsWrittenPrefix(backup[..|backup| - 1], s1, s2);
    }
  }

  // ---------------------------------------------------------------- products

  predicate NonEmpty(p: string) {
    |p| > 0
  }

  /** An entry a parsed image list can hold. */
  predicate CleanImage(x: string) {
    x != "" && IsTrimmed(x) && ',' !in x
  }

  /** The comma-separated pieces, trimmed, empty ones dropped. */
  function Pieces(images: string): (r: seq<string>)
    ensures forall i :: 0 <= i < |r| ==> CleanImage(r[i])
  {
    var pieces := Split(images, ',');
    var trimmed := MapSeq(Trim, pieces);
    var parts := Filter(NonEmpty, trimmed);
    assert forall k :: 0 <= k < |trimmed| ==> ',' !in trimmed[k] by {
      forall k | 0 <= k < |trimmed|
        ensures ',' !in trimmed[k]
      {
        TrimKeepsAbsent(pieces[k], ',');
      }
    }
    assert forall i :: 0 <= i < |parts| ==> CleanImage(parts[i]) by {
      forall i | 0 <= i < |parts|
        ensures CleanImage(parts[i])
      {
        assert parts[i] in trimmed;
        var k :| 0 <= k < |trimmed| && trimmed[k] == parts[i];
      }
    }
    parts
  }

  /** `parseImages`: the pieces, or the placeholder alone when the string is
      empty or no piece remains. A parsed list is never empty and every entry
      is non-empty, trimmed and free of commas. */
  function ParseImages(images: string): (r: seq<string>)
    ensures |r| >= 1
    ensures forall i :: 0 <= i < |r| ==> CleanImage(r[i])
    ensures images == "" ==> r == [PlaceholderImage]
  {
    PlaceholderIsClean();
    if images == "" then [PlaceholderImage]
    else
      var parts := Pieces(images);
      if |parts| > 0 then parts else [PlaceholderImage]
  }

  lemma PlaceholderIsClean()
    ensures CleanImage(PlaceholderImage)
  {
    assert ',' !in "https://via." && ',' !in "placeholder.com/" && ',' !in "300x200/EFEFEF/";
    assert ',' !in "666666?text=" && ',' !in "No+Image";
  }

  /** Comma-joining a parsed list and parsing it again gives the same list. */
  lemma ParseImagesRoundTrip(images: string)
    ensures ParseImages(Join(ParseImages(images), ',')) == ParseImages(images)
  {
    CleanListParses(ParseImages(images));
  }

  /** Any non-empty list of non-empty, trimmed, comma-free entries is what
      parsing its comma-join gives back. */
  lemma CleanListParses(xs: seq<string>)
    requires |xs| >= 1
    requires forall i :: 0 <= i < |xs| ==> CleanImage(xs[i])
    ensures ParseImages(Join(xs, ',')) == xs
  {
    JoinNotEmpty(xs, ',');
    PiecesOfJoin(xs);
  }

  lemma PiecesOfJoin(xs: seq<string>)
    requires |xs| >= 1
    requires forall i :: 0 <= i < |xs| ==> CleanImage(xs[i])
    ensures Pieces(Join(xs, ',')) == xs
  {
    SplitJoinClean(xs);
    PiecesOfSplit(Join(xs, ','), xs);
  }

  lemma PiecesOfSplit(s: string, xs: seq<string>)
    requires Split(s, ',') == xs
    requires forall i :: 0 <= i < |xs| ==> CleanImage(xs[i])
    ensures Pieces(s) == xs
  {
    TrimAllTrimmed(xs);
    FilterKeepsAll(NonEmpty, xs);
  }

  lemma SplitJoinClean(xs: seq<string>)
    requires |xs| >= 1
    requires forall i :: 0 <= i < |xs| ==> ',' !in xs[i]
    ensures Split(Join(xs, ','), ',') == xs
  {
    forall x | x in xs
      ensures ',' !in x
    {
      var i :| 0 <= i < |xs| && xs[i] == x;
    }
    SplitJoin(xs, ',');
  }

  lemma JoinNotEmpty(xs: seq<string>, sep: char)
    requires |xs| >= 1 && xs[0] != ""
    ensures Join(xs, sep) != ""
  {
    if |xs| > 1 {
      assert |Join(xs, sep)| >= |xs[0]|;
    }
  }

  lemma TrimAllTrimmed(xs: seq<string>)
    requires forall i :: 0 <= i < |xs| ==> IsTrimmed(xs[i])
    ensures MapSeq(Trim, xs) == xs
  {
  }

  /** The new category id for a backup product: `mapping[categoryId]`, with an
      absent key or 0 meaning none. */
  function MappedCategory(mapping: map<string, int>, p: BackupProduct): (r: Option<int>)
    ensures r.Some? <==> p.categoryId in mapping && mapping[p.categoryId] != 0
    ensures r.Some? ==> r.value == mapping[p.categoryId]
  {
    if p.categoryId in mapping && mapping[p.categoryId] != 0 then Some(mapping[p.categoryId]) else None
  }

  /** The create request for a backup product, or `None` when it is skipped. */
  function ProductRequest(mapping: map<string, int>, p: BackupProduct): (r: Option<ProductUpdateDto>)
    ensures r.None? <==> MappedCategory(mapping, p).None?
    ensures r.Some? ==> (r.value.title == p.title && r.value.price == p.price &&
      r.value.description == p.description && r.value.categoryId == MappedCategory(mapping, p).value &&
      r.value.images == ParseImages(p.images))
  {
    match MappedCategory(mapping, p)
    case None => None
    case Some(cid) => Some(ProductUpdateDto(p.title, p.price, p.description, cid, ParseImages(p.images)))
  }

  /** How many products were created: `created[i]` is the result of the `i`-th
      backup product's request, which a skipped product never issues. */
  function ProductsCreated(mapping: map<string, int>, backup: seq<BackupProduct>, created: seq<bool>): (n: nat)
    requires |created| == |backup|
    ensures n <= |backup|
    decreases |backup|
  {
    if backup == [] then 0
    else
      var here := if ProductRequest(mapping, backup[0]).Some? && created[0] then 1 else 0;
      here + ProductsCreated(mapping, backup[1..], created[1..])
  }

  /** Skipped products never count: with no usable category mapping nothing is created. */
  lemma {:induction false} NoMappingNoProducts(mapping: map<string, int>, backup: seq<BackupProduct>, created: seq<bool>)
    requires |created| == |backup|
    requires forall i :: 0 <= i < |backup| ==> MappedCategory(mapping, backup[i]).None?
    ensures ProductsCreated(mapping, backup, created) == 0
    decreases |backup|
  {
    if backup != [] {
      NoMappingNoProducts(mapping, backup[1..], created[1..]);
    }
  }

  datatype RestorationResult = RestorationResult(categoriesCreated: nat, productsCreated: nat)

  /** `restoreFromBackup`: success exactly when at least one product was created. */
  function RestoreOutcome(r: RestorationResult): (o: InitResult)
    ensures o.success <==> r.productsCreated > 0
    ensures !o.success ==> o.message == RestoreFailedMessage
  {
    if r.productsCreated > 0 then
      InitResult(true, "Полностью восстановлено: " + IntToString(r.categoriesCreated) + " категорий и " +
        IntToString(r.productsCreated) + " продуктов")
    else InitResult(false, RestoreFailedMessage)
  }

  /** The whole restore once the creation results are in; `categoriesCreated`
      is the number of mapped keys. */
  function Restore(
    backupCategories: seq<BackupCategory>, createdCategories: seq<Option<Category>>,
    backupProducts: seq<BackupProduct>, createdProducts: seq<bool>): (r: RestorationResult)
    requires |createdCategories| == |backupCategories| && |createdProducts| == |backupProducts|
    ensures r.productsCreated <= |backupProducts|
    ensures r.categoriesCreated == |CategoryMapping(backupCategories, createdCategories).Keys|
  {
    var mapping := CategoryMapping(backupCategories, createdCategories);
    RestorationResult(|mapping.Keys|, ProductsCreated(mapping, backupProducts, createdProducts))
  }

  /** A restore in which no category was recreated recreates no product and fails. */
  lemma {:induction false} NoCategoriesNoRestore(
    backupCategories: seq<BackupCategory>, createdCategories: seq<Option<Category>>,
    backupProducts: seq<BackupProduct>, createdProducts: seq<bool>)
    requires |createdCategories| == |backupCategories| && |createdProducts| == |backupProducts|
    requires forall i :: 0 <= i < |createdCategories| ==> createdCategories[i].None?
    ensures !RestoreOutcome(Restore(backupCategories, createdCategories, backupProducts, createdProducts)).success
  {
    EmptyMapping(backupCategories, createdCategories);
    NoMappingNoProducts(CategoryMapping(backupCategories, createdCategories), backupProducts, createdProducts);
  }

  lemma {:induction false} EmptyMapping(backup: seq<BackupCategory>, created: seq<Option<Category>>)
    requires |created| == |backup|
    requires forall i :: 0 <= i < |created| ==> created[i].None?
    ensures CategoryMapping(backup, created) == map[]
    decreases |backup|
  {
    if backup != [] {
      EmptyMapping(backup[..|backup| - 1], created[..|backup| - 1]);
    }
  }

  // ---------------------------------------------------------------- the guard

  class DataInitializationService {
    var isInitializing: bool
    var initializationAttempted: bool

    constructor ()
      ensures !isInitializing && !initializationAttempted
    {
      isInitializing := false;
      initializationAttempted := false;
    }

    /** `initializeData`, up to the start of the work: while one run is in
        progress, or once one has been attempted, the call answers success at
        once and does nothing (`Some`); otherwise it marks the run started (`None`). */
    method InitializeData() returns (immediate: Option<InitResult>)
      modifies this
      ensures old(isInitializing) ==> immediate == Some(InitResult(true, InProgressMessage))
      ensures !old(isInitializing) && old(initializationAttempted) ==>
        immediate == Some(InitResult(true, AlreadyCompletedMessage))
      ensures immediate.Some? ==> isInitializing == old(isInitializing) && initializationAttempted == old(initializationAttempted)
      ensures immediate.None? <==> !old(isInitializing) && !old(initializationAttempted)
      ensures immediate.None? ==> isInitializing && initializationAttempted
    {
      if isInitializing {
        return Some(InitResult(true, InProgressMessage));
      }
      if initializationAttempted {
        return Some(InitResult(true, AlreadyCompletedMessage));
      }
      isInitializing := true;
      initializationAttempted := true;
      return None;
    }

    /** The run's result is in (healthy, restored, or failed): the run is over,
        and it stays attempted. The result is `Outcome` of what the run saw. */
    method FinishInitialization()
      modifies this
      ensures !isInitializing && initializationAttempted == old(initializationAttempted)
    {
      isInitializing := false;
    }

    method ResetInitialization()
      modifies this
      ensures !isInitializing && !initializationAttempted
    {
      isInitializing := false;
      initializationAttempted := false;
    }
  }

  /** The result of a run that got past the guard: healthy when nothing is
      missing, otherwise the restore's outcome, or a failure message when the
      restore raised `error`. */
  function Outcome(check: CheckResult, restored: Option<RestorationResult>, error: string): (o: InitResult)
    ensures !check.needsRestore ==> o == InitResult(true, HealthyMessage)
    ensures check.needsRestore && restored.Some? ==> o == RestoreOutcome(restored.value)
    ensures check.needsRestore && restored.None? ==> !o.success
  {
    if !check.needsRestore then InitResult(true, HealthyMessage)
    else match restored
      case Some(r) => RestoreOutcome(r)
      case None => InitResult(false, "Восстановление не удалось: " + error)
  }
}
