/** The stored records of the news backend: a category, a news article and a
    comment, the column constraints the tables declare, the foreign key from a
    news article to its category (with its ON DELETE SET NULL rule), and the
    two sides of the category/news relationship. */
module Models {
  import opened Common

  /** Column widths declared by the tables. */
  const CategoryNameMaxLength: nat := 100
  const NewsTitleMaxLength: nat := 100
  const NewsContentMaxLength: nat := 255
  const NewsImageMaxLength: nat := 255

  datatype Category = Category(id: int, name: string, created: Timestamp)

  /** `content` has the optional type of the source's annotation; the column
      itself is NOT NULL, which ValidNews states. */
  datatype News = News(
    id: int,
    title: string,
    content: Option<string>,
    images: seq<Option<string>>,
    created: Timestamp,
    updated: Timestamp,
    categoryId: Option<int>)

  /** The source imports its comment table from elsewhere; the fields are the
      ones its handlers and schemas use. */
  datatype Comment = Comment(
    id: int,
    text: string,
    created: Timestamp,
    updated: Timestamp,
    userId: UserId,
    newsId: int)

  /** `name` is a non-null string of at most 100 characters. */
  predicate ValidCategory(c: Category) {
    |c.name| <= CategoryNameMaxLength
  }

  /** An image entry may be null; a present one has at most 255 characters. */
  predicate ValidImage(image: Option<string>) {
    image.None? || |image.value| <= NewsImageMaxLength
  }

  /** The NOT NULL and width constraints of the news table. */
  predicate ValidNews(n: News) {
    && |n.title| <= NewsTitleMaxLength
    && n.content.Some? && |n.content.value| <= NewsContentMaxLength
    && forall i :: 0 <= i < |n.images| ==> ValidImage(n.images[i])
  }

  /** The foreign key on `category_id`: null, or the id of a stored category. */
  predicate RefersToExisting(categories: map<int, Category>, n: News) {
    n.categoryId.None? || n.categoryId.value in categories
  }

  /** Every category is stored under its own id. */
  predicate CategoriesKeyed(categories: map<int, Category>) {
    forall k :: k in categories ==> categories[k].id == k
  }

  /** `Category.news`: the ids of the news articles whose `category_id` names `cid`. */
  function CategoryNews(news: map<int, News>, cid: int): (ids: set<int>)
    ensures ids <= news.Keys
  {
    set k | k in news && news[k].categoryId == Some(cid)
  }

  /** `select(Category).filter(Category.id == cid)`: a null id compares
      equal to no row. */
  function LookupCategory(categories: map<int, Category>, cid: Option<int>): (c: Option<Category>)
    ensures c.Some? <==> cid.Some? && cid.value in categories
    ensures c.Some? ==> c.value == categories[cid.value]
  {
    match cid
    case None => None
    case Some(k) => if k in categories then Some(categories[k]) else None
  }

  /** `News.category`: the category that `category_id` names, if it is stored. */
  function NewsCategory(categories: map<int, Category>, n: News): (c: Option<Category>)
    ensures c.Some? <==> n.categoryId.Some? && n.categoryId.value in categories
    ensures c.Some? ==> c.value == categories[n.categoryId.value]
  {
    LookupCategory(categories, n.categoryId)
  }

  /** The two relationship attributes are the two sides of one foreign key:
      an article is among a category's news exactly when the article's
      category is that category. */
  lemma RelationshipSides(categories: map<int, Category>, news: map<int, News>, k: int, cid: int)
    requires CategoriesKeyed(categories)
    requires cid in categories && k in news
    ensures k in CategoryNews(news, cid) <==> NewsCategory(categories, news[k]) == Some(categories[cid])
  {
    if NewsCategory(categories, news[k]) == Some(categories[cid]) {
      var other := news[k].categoryId.value;
      assert categories[other].id == other && categories[cid].id == cid;
    }
  }

  /** The effect on the news table of deleting category `cid` under
      `ondelete="SET NULL"`. */
  function SetNullOnDelete(news: map<int, News>, cid: int): (r: map<int, News>)
    ensures r.Keys == news.Keys
    ensures CategoryNews(r, cid) == {}
    ensures forall k :: k in news && news[k].categoryId == Some(cid) ==> r[k].categoryId.None?
    ensures forall k :: k in news ==> r[k].(categoryId := news[k].categoryId) == news[k]
    ensures forall k :: k in news && news[k].categoryId != Some(cid) ==> r[k] == news[k]
  {
    map k | k in news :: if news[k].categoryId == Some(cid) then news[k].(categoryId := None) else news[k]
  }

  /** Deleting a category keeps every column constraint and the foreign key of
      the remaining categories. */
  lemma SetNullKeepsIntegrity(categories: map<int, Category>, news: map<int, News>, cid: int)
    requires forall k :: k in news ==> ValidNews(news[k]) && RefersToExisting(categories, news[k])
    ensures forall k :: k in news ==>
      var r := SetNullOnDelete(news, cid)[k];
      ValidNews(r) && RefersToExisting(categories - {cid}, r)
  {
    var r := SetNullOnDelete(news, cid);
    forall k | k in news
      ensures ValidNews(r[k]) && RefersToExisting(categories - {cid}, r[k])
    {
      assert r[k].(categoryId := news[k].categoryId) == news[k];
      assert r[k].images == news[k].images;
    }
  }
}
