/** The field-by-field updates the PUT and PATCH handlers perform: they walk
    the payload's `(field, value)` pairs and `setattr` each one on the loaded
    record (PUT) or only the truthy ones (PATCH). Each loop is a method proved
    against a field-wise definition of its result, and the properties of the
    two update styles are lemmas about those definitions. */
module Updates {
  import opened Common
  import opened Models
  import opened Schemas

  // Python truthiness of the payload values.

  predicate TruthyText(s: string) {
    s != ""
  }

  predicate TruthyOptionalText(s: Option<string>) {
    s.Some? && s.value != ""
  }

  predicate TruthyImages(images: seq<Option<string>>) {
    images != []
  }

  predicate TruthyOptionalId(c: Option<int>) {
    c.Some? && c.value != 0
  }

  /** `if value:` on one pair of a news payload. */
  predicate TruthyNewsField(f: NewsField) {
    match f
    case Title(t) => TruthyText(t)
    case Content(c) => TruthyOptionalText(c)
    case Images(im) => TruthyImages(im)
    case CategoryId(c) => TruthyOptionalId(c)
  }

  /** `setattr(record, field, value)` for one pair of a news payload. */
  function SetNewsField(n: News, f: NewsField): News {
    match f
    case Title(t) => n.(title := t)
    case Content(c) => n.(content := c)
    case Images(im) => n.(images := im)
    case CategoryId(c) => n.(categoryId := c)
  }

  function SetCategoryField(c: Category, f: CategoryField): Category {
    match f
    case Name(s) => c.(name := s)
  }

  function SetCommentField(c: Comment, f: CommentField): Comment {
    match f
    case Text(s) => c.(text := s)
  }

  /** The payload fields a news record holds. */
  function PayloadOf(n: News): NewsCreate {
    NewsCreate(n.title, n.content, n.images, n.categoryId)
  }

  /** The record after PUT: the payload verbatim, with its id and its
      timestamps kept. */
  function PutNews(n: News, p: NewsCreate): (r: News)
    ensures PayloadOf(r) == p
    ensures r.id == n.id && r.created == n.created && r.updated == n.updated
  {
    News(n.id, p.title, p.content, p.images, n.created, n.updated, p.categoryId)
  }

  /** The record after PATCH: each field takes the payload's value when that
      value is truthy and keeps its own otherwise. */
  function PatchNews(n: News, p: NewsCreate): News {
    n.(title := if TruthyText(p.title) then p.title else n.title,
       content := if TruthyOptionalText(p.content) then p.content else n.content,
       images := if TruthyImages(p.images) then p.images else n.images,
       categoryId := if TruthyOptionalId(p.categoryId) then p.categoryId else n.categoryId)
  }

  function PutCategory(c: Category, p: CategoryCreate): (r: Category)
    ensures r.name == p.name && r.id == c.id && r.created == c.created
  {
    c.(name := p.name)
  }

  function PatchCategory(c: Category, p: CategoryCreate): Category {
    if TruthyText(p.name) then c.(name := p.name) else c
  }

  /** The comment after an owner's PUT: only the text changes. */
  function UpdateCommentText(c: Comment, u: CommentUpdate): (r: Comment)
    ensures r.text == u.text && r.(text := c.text) == c
  {
    c.(text := u.text)
  }

  /** The PUT loop on a news record. */
  method PutNewsFields(n: News, p: NewsCreate) returns (r: News)
    ensures r == PutNews(n, p)
  {
    var items := NewsFields(p);
    r := n;
    for i := 0 to |items|
      invariant r.id == n.id && r.created == n.created && r.updated == n.updated
      invariant r.title == if i >= 1 then p.title else n.title
      invariant r.content == if i >= 2 then p.content else n.content
      invariant r.images == if i >= 3 then p.images else n.images
      invariant r.categoryId == if i >= 4 then p.categoryId else n.categoryId
    {
      r := SetNewsField(r, items[i]);
    }
  }

  /** The PATCH loop on a news record. */
  method PatchNewsFields(n: News, p: NewsCreate) returns (r: News)
    ensures r == PatchNews(n, p)
  {
    var items := NewsFields(p);
    r := n;
    for i := 0 to |items|
      invariant r.id == n.id && r.created == n.created && r.updated == n.updated
      invariant r.title == if i >= 1 && TruthyText(p.title) then p.title else n.title
      invariant r.content == if i >= 2 && TruthyOptionalText(p.content) then p.content else n.content
      invariant r.images == if i >= 3 && TruthyImages(p.images) then p.images else n.images
      invariant r.categoryId == if i >= 4 && TruthyOptionalId(p.categoryId) then p.categoryId else n.categoryId
    {
      if TruthyNewsField(items[i]) {
        r := SetNewsField(r, items[i]);
      }
    }
  }

  /** The PUT loop on a category. */
  method PutCategoryFields(c: Category, p: CategoryCreate) returns (r: Category)
    ensures r == PutCategory(c, p)
  {
    var items := CategoryFields(p);
    r := c;
    for i := 0 to |items|
      invariant r.id == c.id && r.created == c.created
      invariant r.name == if i >= 1 then p.name else c.name
    {
      r := SetCategoryField(r, items[i]);
    }
  }

  /** The PATCH loop on a category. */
  method PatchCategoryFields(c: Category, p: CategoryCreate) returns (r: Category)
    ensures r == PatchCategory(c, p)
  {
    var items := CategoryFields(p);
    r := c;
    for i := 0 to |items|
      invariant r.id == c.id && r.created == c.created
      invariant r.name == if i >= 1 && TruthyText(p.name) then p.name else c.name
    {
      if TruthyText(items[i].name) {
        r := SetCategoryField(r, items[i]);
      }
    }
  }

  /** The PUT loop on a comment. */
  method UpdateCommentFields(c: Comment, u: CommentUpdate) returns (r: Comment)
    ensures r == UpdateCommentText(c, u)
  {
    var items := CommentFields(u);
    r := c;
    for i := 0 to |items|
      invariant r.(text := c.text) == c
      invariant r.text == if i >= 1 then u.text else c.text
    {
      r := SetCommentField(r, items[i]);
    }
  }

  // Properties of the two update styles.

  /** PUT forgets the old payload fields: two records with the same id and
      timestamps become equal under the same PUT. */
  lemma PutIgnoresOldFields(a: News, b: News, p: NewsCreate)
    requires a.id == b.id && a.created == b.created && a.updated == b.updated
    ensures PutNews(a, p) == PutNews(b, p)
  {
  }

  /** PUT carries a null content and a null category into the record verbatim. */
  lemma PutCanClear(n: News, p: NewsCreate)
    requires p.content.None? && p.categoryId.None?
    ensures PutNews(n, p).content.None? && PutNews(n, p).categoryId.None?
  {
  }

  /** A PATCH whose every value is falsy leaves the record as it was. */
  lemma PatchAllFalsyIsIdentity(n: News, p: NewsCreate)
    requires forall i :: 0 <= i < |NewsFields(p)| ==> !TruthyNewsField(NewsFields(p)[i])
    ensures PatchNews(n, p) == n
  {
    assert !TruthyNewsField(NewsFields(p)[0]) && !TruthyNewsField(NewsFields(p)[1]);
    assert !TruthyNewsField(NewsFields(p)[2]) && !TruthyNewsField(NewsFields(p)[3]);
  }

  /** Applying the same PATCH twice gives what applying it once gives. */
  lemma PatchIdempotent(n: News, p: NewsCreate)
    ensures PatchNews(PatchNews(n, p), p) == PatchNews(n, p)
  {
  }

  /** A PATCH whose every value is truthy is a PUT. */
  lemma PatchAllTruthyIsPut(n: News, p: NewsCreate)
    requires forall i :: 0 <= i < |NewsFields(p)| ==> TruthyNewsField(NewsFields(p)[i])
    ensures PatchNews(n, p) == PutNews(n, p)
  {
    assert TruthyNewsField(NewsFields(p)[0]) && TruthyNewsField(NewsFields(p)[1]);
    assert TruthyNewsField(NewsFields(p)[2]) && TruthyNewsField(NewsFields(p)[3]);
  }

  /** PATCH never clears a field: a present content or category stays
      present, a non-empty title or image list stays non-empty. */
  lemma PatchNeverClears(n: News, p: NewsCreate)
    ensures n.content.Some? ==> PatchNews(n, p).content.Some?
    ensures n.categoryId.Some? ==> PatchNews(n, p).categoryId.Some?
    ensures n.title != "" ==> PatchNews(n, p).title != ""
    ensures n.images != [] ==> PatchNews(n, p).images != []
  {
  }

  /** PATCH changes a field exactly when the supplied value is truthy and
      differs from the stored one, and never touches id or timestamps. */
  lemma PatchChangesOnlyTruthyFields(n: News, p: NewsCreate)
    ensures var r := PatchNews(n, p);
      && r.id == n.id && r.created == n.created && r.updated == n.updated
      && (r.title != n.title <==> TruthyText(p.title) && p.title != n.title)
      && (r.content != n.content <==> TruthyOptionalText(p.content) && p.content != n.content)
      && (r.images != n.images <==> TruthyImages(p.images) && p.images != n.images)
      && (r.categoryId != n.categoryId <==> TruthyOptionalId(p.categoryId) && p.categoryId != n.categoryId)
  {
  }

  /** A PATCH body that leaves out `content` and `category_id` keeps both
      stored values. */
  lemma PatchOmittedFieldsKept(n: News, title: string, images: seq<Option<string>>)
    ensures PatchNews(n, NewsCreate(title, images := images)).content == n.content
    ensures PatchNews(n, NewsCreate(title, images := images)).categoryId == n.categoryId
  {
  }

  /** Category PATCH: an empty name changes nothing, the same PATCH twice is
      the same PATCH once, and a non-empty name is a PUT. */
  lemma PatchCategoryLaws(c: Category, p: CategoryCreate)
    ensures !TruthyText(p.name) ==> PatchCategory(c, p) == c
    ensures TruthyText(p.name) ==> PatchCategory(c, p) == PutCategory(c, p)
    ensures PatchCategory(PatchCategory(c, p), p) == PatchCategory(c, p)
  {
  }
}
