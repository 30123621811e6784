/** The request handlers of /news, /categories and /comments over the three
    tables they read and write. A `Store` holds each table as a map from id
    to record, together with the id the table's autoincrement key hands out
    next; each handler is a method that answers Ok, NotFound (HTTP 404) or
    Forbidden (HTTP 403) and changes the tables as the handler's session
    commits them. */
module Routers {
  import opened Common
  import opened Models
  import opened Schemas
  import opened Query
  import opened Updates

  /** The record `News(**news_item.dict(), category=category)` inserts. */
  function NewsFromPayload(id: int, p: NewsCreate, now: Timestamp): (n: News)
    ensures PayloadOf(n) == p
    ensures n.id == id && n.created == now && n.updated == now
  {
    News(id, p.title, p.content, p.images, now, now, p.categoryId)
  }

  function CategoryFromPayload(id: int, p: CategoryCreate, now: Timestamp): (c: Category)
    ensures c.name == p.name && c.id == id && c.created == now
  {
    Category(id, p.name, now)
  }

  /** The record `Comment(**comment.dict(), user_id=user.id)` inserts: the
      author is the caller, whatever the payload holds. */
  function CommentFromPayload(id: int, p: CommentCreate, user: UserId, now: Timestamp): (c: Comment)
    ensures c.userId == user
    ensures c.text == p.text && c.newsId == p.newsId
    ensures c.id == id && c.created == now && c.updated == now
  {
    Comment(id, p.text, now, now, user, p.newsId)
  }

  /** A POST body that leaves out `category_id` takes its default, None,
      and so is answered NotFound whatever categories are stored. */
  lemma OmittedCategoryIsNotFound(categories: map<int, Category>, title: string, images: seq<Option<string>>)
    ensures NewsCreate(title, images := images).content.None?
    ensures LookupCategory(categories, NewsCreate(title, images := images).categoryId).None?
  {
  }

  /** The news, category and comment tables behind the routers. */
  class Store {
    var categories: map<int, Category>
    var news: map<int, News>
    var comments: map<int, Comment>
    var nextCategoryId: int
    var nextNewsId: int
    var nextCommentId: int

    /** Every record sits under its own id, every id is below the table's next
        id, the column constraints hold and `news.category_id` refers to a
        stored category. */
    ghost predicate Valid()
      reads this
    {
      && 1 <= nextCategoryId && 1 <= nextNewsId && 1 <= nextCommentId
      && CategoriesKeyed(categories)
      && (forall k :: k in categories ==> 1 <= k < nextCategoryId && ValidCategory(categories[k]))
      && (forall k :: k in news ==>
            && 1 <= k < nextNewsId && news[k].id == k
            && ValidNews(news[k]) && RefersToExisting(categories, news[k]))
      && (forall k :: k in comments ==> 1 <= k < nextCommentId && comments[k].id == k)
    }

    /** Empty tables; each autoincrement key starts at 1. */
    constructor ()
      ensures Valid()
      ensures categories == map[] && news == map[] && comments == map[]
      ensures nextCategoryId == 1 && nextNewsId == 1 && nextCommentId == 1
    {
      categories, news, comments := map[], map[], map[];
      nextCategoryId, nextNewsId, nextCommentId := 1, 1, 1;
    }

    // ----- /news -----

    /** GET /news: the list projections of the articles from position
        `offset` on, at most `limit` of them. */
    method GetNews(offset: Option<nat>, limit: Option<nat>) returns (page: seq<NewsRead>)
      requires Valid()
      ensures var ids := Ids(news, 1, nextNewsId);
              var o, l := offset.GetOr(DefaultOffset), limit.GetOr(DefaultLimit);
              && |page| == PageSize(|ids|, o, l)
              && forall i :: 0 <= i < |page| ==> o + i < |ids| && page[i] == ToNewsRead(news[ids[o + i]])
    {
      var o, l := offset.GetOr(DefaultOffset), limit.GetOr(DefaultLimit);
      var rows := Page(Rows(news, 1, nextNewsId), o, l);
      page := seq(|rows|, i requires 0 <= i < |rows| => ToNewsRead(rows[i]));
    }

    /** GET /news/{id}. */
    method GetNewsItem(id: int) returns (r: Outcome<NewsItemRead>)
      requires Valid()
      ensures r.NotFound? <==> id !in news
      ensures r.Ok? ==> id in news && r.value == ToNewsItemRead(news[id])
      ensures !r.Forbidden?
    {
      if id !in news {
        return NotFound;
      }
      r := Ok(ToNewsItemRead(news[id]));
    }

    /** POST /news: NotFound unless `category_id` names a stored category;
        otherwise one new article under the next id. */
    method CreateNewsItem(p: NewsCreate, now: Timestamp) returns (r: Outcome<NewsItemRead>)
      requires Valid()
      requires LookupCategory(categories, p.categoryId).Some? ==> ValidNews(NewsFromPayload(nextNewsId, p, now))
      modifies this
      ensures Valid()
      ensures r.NotFound? <==> LookupCategory(old(categories), p.categoryId).None?
      ensures !r.Forbidden?
      ensures r.NotFound? ==> unchanged(this)
      ensures r.Ok? ==>
        var id := old(nextNewsId);
        && id !in old(news)
        && news == old(news)[id := NewsFromPayload(id, p, now)]
        && r.value == ToNewsItemRead(news[id])
        && nextNewsId == id + 1
        && categories == old(categories) && comments == old(comments)
        && nextCategoryId == old(nextCategoryId) && nextCommentId == old(nextCommentId)
    {
      var category := LookupCategory(categories, p.categoryId);
      if category.None? {
        return NotFound;
      }
      var item := NewsFromPayload(nextNewsId, p, now);
      news := news[nextNewsId := item];
      nextNewsId := nextNewsId + 1;
      r := Ok(ToNewsItemRead(item));
    }

    /** DELETE /news/{id}. Comments on the article are left as they are. */
    method DeleteNewsItem(id: int) returns (r: Outcome<()>)
      requires Valid()
      modifies this
      ensures Valid()
      ensures r.NotFound? <==> id !in old(news)
      ensures !r.Forbidden?
      ensures r.NotFound? ==> unchanged(this)
      ensures r.Ok? ==>
        && news == old(news) - {id}
        && categories == old(categories) && comments == old(comments)
        && nextCategoryId == old(nextCategoryId) && nextNewsId == old(nextNewsId)
        && nextCommentId == old(nextCommentId)
    {
      if id !in news {
        return NotFound;
      }
      news := news - {id};
      r := Ok(());
    }

    /** PUT /news/{id}: every payload field overwrites the stored one. */
    method UpdateNewsItem(id: int, p: NewsCreate) returns (r: Outcome<NewsItemRead>)
      requires Valid()
      requires id in news ==> ValidNews(PutNews(news[id], p)) && RefersToExisting(categories, PutNews(news[id], p))
      modifies this
      ensures Valid()
      ensures r.NotFound? <==> id !in old(news)
      ensures !r.Forbidden?
      ensures r.NotFound? ==> unchanged(this)
      ensures r.Ok? ==>
        && news == old(news)[id := PutNews(old(news)[id], p)]
        && r.value == ToNewsItemRead(news[id])
        && categories == old(categories) && comments == old(comments)
        && nextCategoryId == old(nextCategoryId) && nextNewsId == old(nextNewsId)
        && nextCommentId == old(nextCommentId)
    {
      if id !in news {
        return NotFound;
      }
      var item := PutNewsFields(news[id], p);
      news := news[id := item];
      r := Ok(ToNewsItemRead(item));
    }

    /** PATCH /news/{id}: only the truthy payload fields overwrite. */
    method PartialUpdateNewsItem(id: int, p: NewsCreate) returns (r: Outcome<NewsItemRead>)
      requires Valid()
      requires id in news ==> ValidNews(PatchNews(news[id], p)) && RefersToExisting(categories, PatchNews(news[id], p))
      modifies this
      ensures Valid()
      ensures r.NotFound? <==> id !in old(news)
      ensures !r.Forbidden?
      ensures r.NotFound? ==> unchanged(this)
      ensures r.Ok? ==>
        && news == old(news)[id := PatchNews(old(news)[id], p)]
        && r.value == ToNewsItemRead(news[id])
        && categories == old(categories) && comments == old(comments)
        && nextCategoryId == old(nextCategoryId) && nextNewsId == old(nextNewsId)
        && nextCommentId == old(nextCommentId)
    {
      if id !in news {
        return NotFound;
      }
      var item := PatchNewsFields(news[id], p);
      news := news[id := item];
      r := Ok(ToNewsItemRead(item));
    }

    // ----- /categories -----

    /** GET /categories. */
    method GetCategories(offset: Option<nat>, limit: Option<nat>) returns (page: seq<CategoryRead>)
      requires Valid()
      ensures var ids := Ids(categories, 1, nextCategoryId);
              var o, l := offset.GetOr(DefaultOffset), limit.GetOr(DefaultLimit);
              && |page| == PageSize(|ids|, o, l)
              && forall i :: 0 <= i < |page| ==> o + i < |ids| && page[i] == ToCategoryRead(categories[ids[o + i]])
    {
      var o, l := offset.GetOr(DefaultOffset), limit.GetOr(DefaultLimit);
      var rows := Page(Rows(categories, 1, nextCategoryId), o, l);
      page := seq(|rows|, i requires 0 <= i < |rows| => ToCategoryRead(rows[i]));
    }

    /** GET /categories/{id}. */
    method GetCategory(id: int) returns (r: Outcome<CategoryRead>)
      requires Valid()
      ensures r.NotFound? <==> id !in categories
      ensures r.Ok? ==> id in categories && r.value == ToCategoryRead(categories[id])
      ensures !r.Forbidden?
    {
      if id !in categories {
        return NotFound;
      }
      r := Ok(ToCategoryRead(categories[id]));
    }

    /** POST /categories: always one new category under the next id. */
    method CreateCategory(p: CategoryCreate, now: Timestamp) returns (r: CategoryRead)
      requires Valid()
      requires ValidCategory(CategoryFromPayload(nextCategoryId, p, now))
      modifies this
      ensures Valid()
      ensures r.id == old(nextCategoryId) && r.id !in old(categories)
      ensures categories == old(categories)[r.id := CategoryFromPayload(r.id, p, now)]
      ensures r == ToCategoryRead(categories[r.id])
      ensures nextCategoryId == old(nextCategoryId) + 1
      ensures news == old(news) && comments == old(comments)
      ensures nextNewsId == old(nextNewsId) && nextCommentId == old(nextCommentId)
    {
      var category := CategoryFromPayload(nextCategoryId, p, now);
      categories := categories[nextCategoryId := category];
      nextCategoryId := nextCategoryId + 1;
      r := ToCategoryRead(category);
    }

    /** DELETE /categories/{id}: the articles of the category stay, with
        their `category_id` cleared. */
    method DeleteCategory(id: int) returns (r: Outcome<()>)
      requires Valid()
      modifies this
      ensures Valid()
      ensures r.NotFound? <==> id !in old(categories)
      ensures !r.Forbidden?
      ensures r.NotFound? ==> unchanged(this)
      ensures r.Ok? ==>
        && categories == old(categories) - {id}
        && news == SetNullOnDelete(old(news), id)
        && comments == old(comments)
        && nextCategoryId == old(nextCategoryId) && nextNewsId == old(nextNewsId)
        && nextCommentId == old(nextCommentId)
    {
      if id !in categories {
        return NotFound;
      }
      SetNullKeepsIntegrity(categories, news, id);
      categories := categories - {id};
      news := SetNullOnDelete(news, id);
      r := Ok(());
    }

    /** PUT /categories/{id}. */
    method UpdateCategory(id: int, p: CategoryCreate) returns (r: Outcome<CategoryRead>)
      requires Valid()
      requires id in categories ==> ValidCategory(PutCategory(categories[id], p))
      modifies this
      ensures Valid()
      ensures r.NotFound? <==> id !in old(categories)
      ensures !r.Forbidden?
      ensures r.NotFound? ==> unchanged(this)
      ensures r.Ok? ==>
        && categories == old(categories)[id := PutCategory(old(categories)[id], p)]
        && r.value == ToCategoryRead(categories[id])
        && news == old(news) && comments == old(comments)
        && nextCategoryId == old(nextCategoryId) && nextNewsId == old(nextNewsId)
        && nextCommentId == old(nextCommentId)
    {
      if id !in categories {
        return NotFound;
      }
      var category := PutCategoryFields(categories[id], p);
      categories := categories[id := category];
      r := Ok(ToCategoryRead(category));
    }

    /** PATCH /categories/{id}. */
    method PartialUpdateCategory(id: int, p: CategoryCreate) returns (r: Outcome<CategoryRead>)
      requires Valid()
      requires id in categories ==> ValidCategory(PatchCategory(categories[id], p))
      modifies this
      ensures Valid()
      ensures r.NotFound? <==> id !in old(categories)
      ensures !r.Forbidden?
      ensures r.NotFound? ==> unchanged(this)
      ensures r.Ok? ==>
        && categories == old(categories)[id := PatchCategory(old(categories)[id], p)]
        && r.value == ToCategoryRead(categories[id])
        && news == old(news) && comments == old(comments)
        && nextCategoryId == old(nextCategoryId) && nextNewsId == old(nextNewsId)
        && nextCommentId == old(nextCommentId)
    {
      if id !in categories {
        return NotFound;
      }
      var category := PatchCategoryFields(categories[id], p);
      categories := categories[id := category];
      r := Ok(ToCategoryRead(category));
    }

    // ----- /comments -----

    /** GET /comments. */
    method GetComments(offset: Option<nat>, limit: Option<nat>) returns (page: seq<CommentRead>)
      requires Valid()
      ensures var ids := Ids(comments, 1, nextCommentId);
              var o, l := offset.GetOr(DefaultOffset), limit.GetOr(DefaultLimit);
              && |page| == PageSize(|ids|, o, l)
              && forall i :: 0 <= i < |page| ==> o + i < |ids| && page[i] == ToCommentRead(comments[ids[o + i]])
    {
      var o, l := offset.GetOr(DefaultOffset), limit.GetOr(DefaultLimit);
      var rows := Page(Rows(comments, 1, nextCommentId), o, l);
      page := seq(|rows|, i requires 0 <= i < |rows| => ToCommentRead(rows[i]));
    }

    /** GET /comments/{id}: no ownership check on reads. */
    method GetComment(id: int) returns (r: Outcome<CommentRead>)
      requires Valid()
      ensures r.NotFound? <==> id !in comments
      ensures r.Ok? ==> id in comments && r.value == ToCommentRead(comments[id])
      ensures !r.Forbidden?
    {
      if id !in comments {
        return NotFound;
      }
      r := Ok(ToCommentRead(comments[id]));
    }

    /** POST /comments by `user`: NotFound unless `news_id` names a stored
        article; otherwise one new comment authored by `user`. */
    method CreateComment(p: CommentCreate, user: UserId, now: Timestamp) returns (r: Outcome<CommentRead>)
      requires Valid()
      modifies this
      ensures Valid()
      ensures r.NotFound? <==> p.newsId !in old(news)
      ensures !r.Forbidden?
      ensures r.NotFound? ==> unchanged(this)
      ensures r.Ok? ==>
        var id := old(nextCommentId);
        && id !in old(comments)
        && comments == old(comments)[id := CommentFromPayload(id, p, user, now)]
        && r.value == ToCommentRead(comments[id])
        && r.value.userId == user
        && nextCommentId == id + 1
        && categories == old(categories) && news == old(news)
        && nextCategoryId == old(nextCategoryId) && nextNewsId == old(nextNewsId)
    {
      if p.newsId !in news {
        return NotFound;
      }
      var comment := CommentFromPayload(nextCommentId, p, user, now);
      comments := comments[nextCommentId := comment];
      nextCommentId := nextCommentId + 1;
      r := Ok(ToCommentRead(comment));
    }

    /** DELETE /comments/{id} by `user`: NotFound first, then Forbidden
        unless `user` wrote the comment. */
    method DeleteComment(id: int, user: UserId) returns (r: Outcome<()>)
      requires Valid()
      modifies this
      ensures Valid()
      ensures r.NotFound? <==> id !in old(comments)
      ensures r.Forbidden? <==> id in old(comments) && old(comments)[id].userId != user
      ensures !r.Ok? ==> unchanged(this)
      ensures r.Ok? ==>
        && comments == old(comments) - {id}
        && categories == old(categories) && news == old(news)
        && nextCategoryId == old(nextCategoryId) && nextNewsId == old(nextNewsId)
        && nextCommentId == old(nextCommentId)
    {
      if id !in comments {
        return NotFound;
      }
      if comments[id].userId != user {
        return Forbidden;
      }
      comments := comments - {id};
      r := Ok(());
    }

    /** PUT /comments/{id} by `user`: NotFound first, then Forbidden unless
        `user` wrote the comment; the owner's update changes the text only. */
    method UpdateComment(id: int, u: CommentUpdate, user: UserId) returns (r: Outcome<CommentRead>)
      requires Valid()
      modifies this
      ensures Valid()
      ensures r.NotFound? <==> id !in old(comments)
      ensures r.Forbidden? <==> id in old(comments) && old(comments)[id].userId != user
      ensures !r.Ok? ==> unchanged(this)
      ensures r.Ok? ==>
        && comments == old(comments)[id := UpdateCommentText(old(comments)[id], u)]
        && r.value == ToCommentRead(comments[id])
        && categories == old(categories) && news == old(news)
        && nextCategoryId == old(nextCategoryId) && nextNewsId == old(nextNewsId)
        && nextCommentId == old(nextCommentId)
    {
      if id !in comments {
        return NotFound;
      }
      if comments[id].userId != user {
        return Forbidden;
      }
      var comment := UpdateCommentFields(comments[id], u);
      comments := comments[id := comment];
      r := Ok(ToCommentRead(comment));
    }
  }

  /** A category "Tech" and an article in it; deleting the category makes it
      unreadable and keeps the article with a null category, and deleting the
      article makes it unreadable too. */
  method CategoryDeleteExample(now: Timestamp)
    returns (before: Outcome<NewsItemRead>, noCategory: Outcome<CategoryRead>,
             after: Outcome<NewsItemRead>, gone: Outcome<NewsItemRead>)
    ensures before.Ok? && before.value.categoryId == Some(1)
    ensures before.value.title == "A" && before.value.content == Some("B") && before.value.images == []
    ensures noCategory.NotFound?
    ensures after.Ok? && after.value.categoryId.None?
    ensures after.value.(categoryId := before.value.categoryId) == before.value
    ensures gone.NotFound?
  {
    var store := new Store();
    var tech := store.CreateCategory(CategoryCreate("Tech"), now);
    var created := store.CreateNewsItem(NewsCreate("A", Some("B"), [], Some(tech.id)), now);
    before := store.GetNewsItem(1);
    var deleted := store.DeleteCategory(tech.id);
    noCategory := store.GetCategory(tech.id);
    after := store.GetNewsItem(1);
    var removed := store.DeleteNewsItem(1);
    gone := store.GetNewsItem(1);
  }

  /** A comment by `owner`: `other` can neither edit nor delete it, the owner
      can edit its text, and after the owner deletes it it is gone. */
  method CommentOwnershipExample(owner: UserId, other: UserId, now: Timestamp)
    returns (denied: Outcome<CommentRead>, edited: Outcome<CommentRead>, gone: Outcome<CommentRead>)
    requires owner != other
    ensures denied.Forbidden?
    ensures edited.Ok? && edited.value.text == "edited" && edited.value.userId == owner
    ensures gone.NotFound?
  {
    var store := new Store();
    var tech := store.CreateCategory(CategoryCreate("Tech"), now);
    var article := store.CreateNewsItem(NewsCreate("A", Some("B"), [], Some(tech.id)), now);
    var comment := store.CreateComment(CommentCreate("first", 1), owner, now);
    denied := store.UpdateComment(1, CommentUpdate("spam"), other);
    var refused := store.DeleteComment(1, other);
    assert refused.Forbidden?;
    edited := store.UpdateComment(1, CommentUpdate("edited"), owner);
    var deleted := store.DeleteComment(1, owner);
    gone := store.GetComment(1);
  }
}
