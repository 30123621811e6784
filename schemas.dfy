/** Request payloads and response projections of the news backend, and the
    `dict().items()` view of each payload that the update handlers walk. */
module Schemas {
  import opened Common
  import opened Models

  /** Body of POST, PUT and PATCH on /news; a body that leaves out
      `content` or `category_id` gets None. */
  datatype NewsCreate = NewsCreate(
    title: string,
    content: Option<string> := None,
    images: seq<Option<string>>,
    categoryId: Option<int> := None)

  /** Body of POST, PUT and PATCH on /categories. */
  datatype CategoryCreate = CategoryCreate(name: string)

  /** Body of POST on /comments: no author field, the author is the caller. */
  datatype CommentCreate = CommentCreate(text: string, newsId: int)

  /** Body of PUT on /comments/{id}: the text and nothing else. */
  datatype CommentUpdate = CommentUpdate(text: string)

  /** The list projection of a news article. */
  datatype NewsRead = NewsRead(id: int, title: string, created: Timestamp)

  /** The item projection of a news article: everything but the id. */
  datatype NewsItemRead = NewsItemRead(
    title: string,
    content: Option<string>,
    images: seq<Option<string>>,
    created: Timestamp,
    updated: Timestamp,
    categoryId: Option<int>)

  datatype CategoryRead = CategoryRead(id: int, name: string, created: Timestamp)

  datatype CommentRead = CommentRead(
    id: int,
    text: string,
    created: Timestamp,
    updated: Timestamp,
    userId: UserId,
    newsId: int)

  function ToNewsRead(n: News): NewsRead {
    NewsRead(n.id, n.title, n.created)
  }

  /** The list projection keeps exactly the id, the title and the creation time. */
  lemma NewsReadKeepsExactly(a: News, b: News)
    ensures ToNewsRead(a) == ToNewsRead(b) <==> (a.id == b.id && a.title == b.title && a.created == b.created)
  {
  }

  /** Rebuilds a news record from its id and its item projection. */
  function NewsFromItemRead(id: int, v: NewsItemRead): News {
    News(id, v.title, v.content, v.images, v.created, v.updated, v.categoryId)
  }

  /** The item projection loses the id and nothing else. */
  function ToNewsItemRead(n: News): (v: NewsItemRead)
    ensures NewsFromItemRead(n.id, v) == n
  {
    NewsItemRead(n.title, n.content, n.images, n.created, n.updated, n.categoryId)
  }

  /** Two articles have the same item projection exactly when they differ at
      most in their ids. */
  lemma NewsItemReadDropsOnlyId(a: News, b: News)
    ensures ToNewsItemRead(a) == ToNewsItemRead(b) <==> a.(id := b.id) == b
  {
    if ToNewsItemRead(a) == ToNewsItemRead(b) {
      assert NewsFromItemRead(b.id, ToNewsItemRead(a)) == b;
    }
  }

  function CategoryFromRead(v: CategoryRead): Category {
    Category(v.id, v.name, v.created)
  }

  /** A category's projection carries every stored field. */
  function ToCategoryRead(c: Category): (v: CategoryRead)
    ensures CategoryFromRead(v) == c
  {
    CategoryRead(c.id, c.name, c.created)
  }

  function CommentFromRead(v: CommentRead): Comment {
    Comment(v.id, v.text, v.created, v.updated, v.userId, v.newsId)
  }

  /** A comment's projection carries every stored field. */
  function ToCommentRead(c: Comment): (v: CommentRead)
    ensures CommentFromRead(v) == c
  {
    CommentRead(c.id, c.text, c.created, c.updated, c.userId, c.newsId)
  }

  /** One `(field, value)` pair of `NewsCreate.dict().items()`. */
  datatype NewsField =
    | Title(title: string)
    | Content(content: Option<string>)
    | Images(images: seq<Option<string>>)
    | CategoryId(categoryId: Option<int>)

  /** One `(field, value)` pair of `CategoryCreate.dict().items()`. */
  datatype CategoryField = Name(name: string)

  /** One `(field, value)` pair of `CommentUpdate.dict().items()`. */
  datatype CommentField = Text(text: string)

  /** The pairs in declaration order. */
  function NewsFields(p: NewsCreate): seq<NewsField> {
    [Title(p.title), Content(p.content), Images(p.images), CategoryId(p.categoryId)]
  }

  function CategoryFields(p: CategoryCreate): seq<CategoryField> {
    [Name(p.name)]
  }

  function CommentFields(u: CommentUpdate): seq<CommentField> {
    [Text(u.text)]
  }
}
