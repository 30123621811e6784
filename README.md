# News backend: request handlers over three tables

This project models the request-handling layer of a small news-publishing
backend. The backend serves three HTTP resources: `/categories`, `/news`
and `/comments`. The model covers:

- Each table is a map from integer id to record. Each table also has the
  next id its autoincrement primary key will hand out. All of this is held
  in one `Routers.Store` object.
- Each handler (list, get, create, PUT, PATCH, delete) is a method of
  `Store`. It answers `Ok(value)`, `NotFound` (the handler's HTTP 404) or
  `Forbidden` (HTTP 403). It changes the maps the way the handler's session
  commits them.
- The `for field, value in payload.dict().items(): setattr(...)` loops of
  PUT and PATCH are methods with loops (`Updates.*Fields`). Each one is
  proved equal to a field-wise definition (`PutNews`, `PatchNews`, ...).
  The properties of the two update styles are lemmas about those
  definitions.
- The records (`Models`) carry the column constraints of the tables: widths,
  NOT NULL, and the `category_id` foreign key with `ondelete="SET NULL"`.
- The payloads and response projections (`Schemas`) are datatypes, with
  projection functions whose round trips show exactly what each projection
  keeps.
- The listing query `offset(...).limit(...)` is `Query.Page` over the rows
  in ascending id order (`Query.Ids`).

The authenticated caller is an opaque `UserId` parameter. Clock readings
are `Timestamp` parameters supplied by the caller.

Files: `common.dfy` (Option, Outcome, Timestamp, UserId), `models.dfy`,
`schemas.dfy`, `query.dfy`, `updates.dfy`, `routers.dfy`.

Behaviours of the code worth knowing:

- PUT and PATCH do not refresh `updated`. No handler assigns it, and the
  column has only an insertion default (src/news/models.py:38).
- Creating a news article with no `category_id` returns NotFound. The lookup
  `Category.id == None` matches no row (src/news/routers.py:65-70), so every
  article is created inside a category.
- Creating a category does not check for a non-empty name. The payload
  type is a plain `str` (src/news/schemas.py:55).
- The comment update handler overwrites only `text`
  (src/news/routers.py:308-309). It does not touch `updated`, and there is
  no PATCH for comments.

## Model

| member | source | states |
|---|---|---|
| Models.CategoryNews | src/news/models.py:24 | `Category.news` holds only ids of stored articles |
| Models.NewsCategory | src/news/models.py:43 | `News.category` is found iff `category_id` is non-null and stored, and is then the category it names |
| Models.LookupCategory | src/news/routers.py:65-67 | the lookup finds a category iff `category_id` is non-null and stored, and finds that one |
| Models.RelationshipSides | src/news/models.py:40-43 | an article is among a category's news iff the article's category is that category |
| Models.SetNullOnDelete | src/news/models.py:40-42 | deleting category `cid` keeps every article, sets `category_id` to null on every article that named `cid`, leaves no article naming `cid`, and changes nothing else |
| Models.SetNullKeepsIntegrity | src/news/models.py:33-42 | after SET NULL every article still meets the column constraints and refers only to remaining categories |
| Schemas.NewsReadKeepsExactly | src/news/schemas.py:22-25 | two articles have equal list projections iff they agree on id, title and created |
| Schemas.ToNewsItemRead | src/news/schemas.py:11-17 | the item projection plus the id rebuilds the record |
| Schemas.NewsItemReadDropsOnlyId | src/news/schemas.py:11-17 | two articles have equal item projections iff they differ at most in id |
| Schemas.ToCategoryRead | src/news/schemas.py:39-48 | the category projection carries every stored field (round trip) |
| Schemas.ToCommentRead | src/news/schemas.py:75-84 | the comment projection carries every stored field (round trip) |
| Query.Ids | src/news/routers.py:39 | the listed ids are stored, lie in the range, and strictly increase |
| Query.IdsComplete | src/news/routers.py:39 | every stored id in the range is listed |
| Query.Page | src/news/routers.py:39-41 | OFFSET/LIMIT keeps `min(limit, n - offset)` rows (none past the end), the i-th being row `offset + i` |
| Query.PagesTile | src/news/routers.py:39 | for every offset and limit, including a last partial page and offsets past the end, two consecutive pages of size `limit` concatenate to the page of size `2 * limit` |
| Updates.PutNews | src/news/routers.py:107-108 | PUT stores the payload verbatim and keeps id, created, updated |
| Updates.PutCategory | src/news/routers.py:202-203 | category PUT sets the name and keeps id and created |
| Updates.UpdateCommentText | src/news/routers.py:308-309 | a comment update sets the text and leaves every other field as it was |
| Updates.PutNewsFields | src/news/routers.py:107-108 | the setattr loop over all four pairs yields `PutNews` |
| Updates.PatchNewsFields | src/news/routers.py:127-129 | the setattr loop over the truthy pairs yields `PatchNews` |
| Updates.PutCategoryFields | src/news/routers.py:202-203 | the setattr loop over the category payload yields `PutCategory` |
| Updates.PatchCategoryFields | src/news/routers.py:222-224 | the truthy-only setattr loop over the category payload yields `PatchCategory` |
| Updates.UpdateCommentFields | src/news/routers.py:308-309 | the setattr loop over `CommentUpdate` yields `UpdateCommentText` |
| Updates.PutIgnoresOldFields | src/news/routers.py:107-108 | PUT's result does not depend on the old payload fields |
| Updates.PutCanClear | src/news/routers.py:107-108 | `PutNews` carries a null content and a null category verbatim (a null content then fails the NOT NULL column, which `Routers.Store.UpdateNewsItem` requires away) |
| Updates.PatchAllFalsyIsIdentity | src/news/routers.py:127-129 | a PATCH with all values falsy ("", None, [], 0) leaves the record unchanged |
| Updates.PatchIdempotent | src/news/routers.py:127-129 | applying the same PATCH twice equals applying it once |
| Updates.PatchAllTruthyIsPut | src/news/routers.py:127-129 | a PATCH with every value truthy equals PUT |
| Updates.PatchNeverClears | src/news/routers.py:127-129 | PATCH can never null out content or category_id, nor empty the title or the image list |
| Updates.PatchChangesOnlyTruthyFields | src/news/routers.py:127-129 | a field changes iff its supplied value is truthy and differs; id and timestamps never change |
| Updates.PatchOmittedFieldsKept | src/news/schemas.py:34-36 | a PATCH body that leaves out `content` and `category_id` (so both default to None) keeps both stored values |
| Updates.PatchCategoryLaws | src/news/routers.py:222-224 | category PATCH: empty name is a no-op, otherwise it is PUT; idempotent |
| Routers.NewsFromPayload | src/news/routers.py:72 | the inserted article holds the payload verbatim, the given id, and created = updated = now |
| Routers.CategoryFromPayload | src/news/routers.py:168 | the inserted category holds the payload's name, the given id and created = now |
| Routers.CommentFromPayload | src/news/routers.py:269 | the inserted comment's author is the caller; text and news_id come from the payload |
| Routers.OmittedCategoryIsNotFound | src/news/schemas.py:34-36 | a POST body that leaves out `content` and `category_id` gets None for both, and its category lookup fails on every store, so it is answered NotFound |
| Routers.Store.constructor | src/news/models.py:18 | empty tables, every autoincrement key starting at 1 |
| Routers.Store.GetNews | src/news/routers.py:33-42 | the list projections of the articles from position offset (default 0), at most limit (default 10), in id order; store unchanged |
| Routers.Store.GetNewsItem | src/news/routers.py:45-56 | NotFound iff no article has the id, else its item projection; store unchanged |
| Routers.Store.CreateNewsItem | src/news/routers.py:59-77 | NotFound and nothing changed iff category_id is null or not stored; else exactly one article under a fresh id |
| Routers.Store.DeleteNewsItem | src/news/routers.py:80-92 | NotFound and nothing changed iff absent; else exactly that article is removed |
| Routers.Store.UpdateNewsItem | src/news/routers.py:95-112 | NotFound and nothing changed iff absent; else that article becomes `PutNews` of it, nothing else changes |
| Routers.Store.PartialUpdateNewsItem | src/news/routers.py:115-133 | NotFound and nothing changed iff absent; else that article becomes `PatchNews` of it, nothing else changes |
| Routers.Store.GetCategories | src/news/routers.py:136-145 | the category projections from position offset, at most limit, in id order; store unchanged |
| Routers.Store.GetCategory | src/news/routers.py:148-159 | NotFound iff no category has the id, else its projection; store unchanged |
| Routers.Store.CreateCategory | src/news/routers.py:162-172 | always adds exactly one category under a fresh id |
| Routers.Store.DeleteCategory | src/news/routers.py:175-187 | NotFound and nothing changed iff absent; else the category is removed and its articles kept with category_id cleared |
| Routers.Store.UpdateCategory | src/news/routers.py:190-207 | NotFound and nothing changed iff absent; else only that category's name is overwritten |
| Routers.Store.PartialUpdateCategory | src/news/routers.py:210-228 | NotFound and nothing changed iff absent; else that category becomes `PatchCategory` of it |
| Routers.Store.GetComments | src/news/routers.py:231-240 | the comment projections from position offset, at most limit, in id order; store unchanged |
| Routers.Store.GetComment | src/news/routers.py:243-254 | NotFound iff no comment has the id, else its projection; no ownership check |
| Routers.Store.CreateComment | src/news/routers.py:257-273 | NotFound and nothing changed iff news_id is not stored; else one comment under a fresh id, authored by the caller |
| Routers.Store.DeleteComment | src/news/routers.py:276-290 | NotFound iff absent, else Forbidden iff the caller is not the author, both changing nothing; else exactly that comment is removed |
| Routers.Store.UpdateComment | src/news/routers.py:293-313 | NotFound iff absent, else Forbidden iff the caller is not the author, both changing nothing; else only that comment's text changes |
| Routers.CategoryDeleteExample | src/news/routers.py:175-187 | create "Tech" and an article in it, delete the category: the category reads NotFound and the article remains with null category; delete the article: it reads NotFound |
| Routers.CommentOwnershipExample | src/news/routers.py:276-313 | another user's update and delete of a comment are Forbidden; the owner's update changes the text; after the owner deletes it, it reads NotFound |

## Left out

- Authentication: the JWT strategy with its 3600-second lifetime and the active-user check (src/users/auth.py:18-31) belong to the authentication library. The caller is a verified `UserId` parameter.
- Sessions, `commit`/`refresh`, SQL query building and FastAPI routing are left out. Each handler's reads and writes are applied to the maps at once. Concurrency and transaction isolation are out too.
- Error detail strings ("News not found", "Not enough permissions") are left out. Only the status is modelled: NotFound for 404, Forbidden for 403.
- Pydantic request validation (HTTP 422) happens before a handler runs. Payloads are well-typed datatype values.
- Clock readings: `datetime.utcnow` is replaced by a `now` parameter.
- Listing order: the query has no ORDER BY. The model lists rows in ascending id order, which is insertion order for an autoincrement key.
- Negative `offset` or `limit`: the database rejects them and the handler does not catch the error. The parameters are `Option<nat>`.
- Routers.Store.CreateNewsItem: requires that the inserted row meets the NOT NULL `content` constraint and the column widths (models.py:34-36). The handler has no code path for violating them. The requirement applies only when the category lookup succeeds, so the NotFound path is total.
- Routers.Store.UpdateNewsItem: requires that the overwritten row meets the column constraints and names a stored category or none. The database would reject a PUT with null content or an unknown `category_id`, and the handler does not handle that.
- Routers.Store.PartialUpdateNewsItem: requires the same of the patched row. Only a truthy `category_id` or an over-long value can break it.
- Routers.Store.CreateCategory, Routers.Store.UpdateCategory, Routers.Store.PartialUpdateCategory: require the name to fit in 100 characters, the column width.
- The comment table's own definition is not part of the shown models.py. Its fields come from the handlers and schemas, and no constraint on them is modelled.
- Routers.CommentFromPayload: sets a new comment's `created` and `updated` to `now`, on the assumption that both columns have insertion defaults. Any refresh of `updated` on update that the unseen comment table might declare is not modelled.
- Deleting a news article does not cascade to its comments: no cascade is declared in the shown code. Comments may then name an article that no longer exists.
- The misspelled `efault=` on `News.created` (models.py:37) is not modelled. The article's `created` is set to `now` just like `updated`.
- `CommentReadSchema` (schemas.py:59-64) is declared but no handler uses it.
- `from_attributes` configuration and the UUID type of user ids are not modelled. A `UserId` is an integer compared only for equality.
