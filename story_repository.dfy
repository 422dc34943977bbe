/**
 * The story tables and their repository (api/db/repositories/story_repository.py):
 * the query get_stories_by_user builds, ownership-checked lookups, updates
 * and deletes, and the inserts of stories, characters, images and tags.
 *
 * Tables are sequences of rows in storage order. The database's evaluation
 * of a query is not modelled: a query is the list of clauses sent, in order.
 * Fresh uuids and the clock are parameters.
 */
module StoryRepository {
  import opened Wrappers
  import opened Text
  import Supabase

  // ---------------------------------------------------------------- listing query

  /** An ordering: a column and whether it sorts ascending. */
  datatype Order = Order(column: string, ascending: bool)

  /**
   * The stories query as get_stories_by_user leaves it: the owner, each
   * filter in force (None: not applied), the ordering and the inclusive row
   * range.
   */
  datatype Query = Query(
    userId: string,
    theme: Option<string>,
    language: Option<string>,
    isFavorite: Option<bool>,
    titleLike: Option<string>,
    createdFrom: Option<string>,
    createdUntil: Option<string>,
    order: Order,
    first: int,
    last: int)

  /** The filters dict; a key that is missing and a key holding None are both None. */
  datatype Filters = Filters(
    theme: Option<string>,
    language: Option<string>,
    isFavorite: Option<bool>,
    search: Option<string>,
    createdAfter: Option<string>,
    createdBefore: Option<string>,
    orderBy: Option<string>)

  /** `if filters:` — an empty dict is falsy. */
  predicate AnyKey(f: Filters) {
    f.theme.Some? || f.language.Some? || f.isFavorite.Some? || f.search.Some? ||
    f.createdAfter.Some? || f.createdBefore.Some? || f.orderBy.Some?
  }

  /** A string filter is applied only when it is present and non-empty. */
  function WhenTruthy(v: Option<string>): Option<string> {
    if Truthy(v) then v else None
  }

  /** The order clause of an order_by value "field:direction", or None when it does not split into two parts. */
  function ParseOrder(orderBy: string): (c: Option<Order>)
    ensures c.Some? <==> |SplitOn(orderBy, ':')| == 2
    ensures c.Some? ==> c.value == Order(SplitOn(orderBy, ':')[0], SplitOn(orderBy, ':')[1] == "asc")
  {
    var parts := SplitOn(orderBy, ':');
    if |parts| == 2 then Some(Order(parts[0], parts[1] == "asc")) else None
  }

  /** A well-formed order_by is read back from its two halves. */
  lemma {:induction false} ParseOrderOf(field: string, direction: string)
    requires ':' !in field && ':' !in direction
    ensures ParseOrder(field + ":" + direction) == Some(Order(field, direction == "asc"))
  {
    SplitOnCons(field, direction, ':');
    SplitOnNoSep(direction, ':');
  }

  /** The `if filters:` block of get_stories_by_user: each filter narrows the query in turn. */
  method ApplyFilters(q0: Query, filters: Filters) returns (q: Query)
    requires q0.theme.None? && q0.language.None? && q0.isFavorite.None?
    requires q0.titleLike.None? && q0.createdFrom.None? && q0.createdUntil.None?
    ensures q.userId == q0.userId && q.order == q0.order && q.first == q0.first && q.last == q0.last
    ensures q.theme == WhenTruthy(filters.theme) && q.language == WhenTruthy(filters.language)
    ensures q.isFavorite == filters.isFavorite
    ensures q.titleLike == if Truthy(filters.search) then Some("%" + filters.search.value + "%") else None
    ensures q.createdFrom == WhenTruthy(filters.createdAfter)
    ensures q.createdUntil == WhenTruthy(filters.createdBefore)
  {
    q := q0;
    if Truthy(filters.theme) {
      q := q.(theme := filters.theme);
    }
    if Truthy(filters.language) {
      q := q.(language := filters.language);
    }
    if filters.isFavorite.Some? {
      q := q.(isFavorite := filters.isFavorite);
    }
    if Truthy(filters.search) {
      q := q.(titleLike := Some("%" + filters.search.value + "%"));
    }
    if Truthy(filters.createdAfter) {
      q := q.(createdFrom := filters.createdAfter);
    }
    if Truthy(filters.createdBefore) {
      q := q.(createdUntil := filters.createdBefore);
    }
  }

  /**
   * get_stories_by_user: the query it sends. String filters are applied
   * only when non-empty, is_favorite whenever it is not None (False
   * included); the default order is newest first; the range asks for rows
   * offset .. offset + limit - 1. None when order_by does not split into
   * field and direction (the function then answers ([], 0)).
   */
  method GetStoriesByUser(userId: string, limit: int, offset: int, filters: Filters) returns (query: Option<Query>)
    ensures query.None? <==> Truthy(filters.orderBy) && ParseOrder(filters.orderBy.value).None?
    ensures query.Some? ==> query.value.userId == userId
    ensures query.Some? ==>
      && query.value.theme == WhenTruthy(filters.theme)
      && query.value.language == WhenTruthy(filters.language)
      && query.value.isFavorite == filters.isFavorite
      && (query.value.titleLike.Some? <==> Truthy(filters.search))
      && (Truthy(filters.search) ==> query.value.titleLike == Some("%" + filters.search.value + "%"))
      && query.value.createdFrom == WhenTruthy(filters.createdAfter)
      && query.value.createdUntil == WhenTruthy(filters.createdBefore)
    ensures query.Some? ==>
      query.value.order == if Truthy(filters.orderBy) then ParseOrder(filters.orderBy.value).value
                           else Order("created_at", false)
    ensures query.Some? ==> query.value.first == offset && query.value.last - query.value.first + 1 == limit
  {
    var q := Query(userId, None, None, None, None, None, None, Order("", true), 0, 0);
    if AnyKey(filters) {
      q := ApplyFilters(q, filters);
    }
    if Truthy(filters.orderBy) {
      var order := ParseOrder(filters.orderBy.value);
      if order.None? {
        return None;
      }
      q := q.(order := order.value);
    } else {
      q := q.(order := Order("created_at", false));
    }
    q := q.(first := offset, last := offset + limit - 1);
    query := Some(q);
  }

  // ---------------------------------------------------------------- rows

  /** A stories row. */
  datatype StoryRecord = StoryRecord(
    id: string,
    userId: string,
    title: string,
    textContent: string,
    language: string,
    theme: string,
    duration: int,
    audioUrl: string,
    storagePath: Option<string>,
    backgroundMusicId: Option<string>,
    createdAt: int,
    isFavorite: bool,
    playCount: nat)

  /** A story_tags row. */
  datatype TagRow = TagRow(storyId: string, tag: string)

  /** `tag.lower().strip()` */
  function NormalizeTag(tag: string): (t: string)
    ensures |t| <= |tag|
    ensures t == [] || (!IsSpace(t[0]) && !IsSpace(t[|t| - 1]))
    ensures forall i | 0 <= i < |t| :: LowerChar(t[i]) == t[i]
  {
    var lower := ToLower(tag);
    StripKeeps(lower, c => LowerChar(c) == c);
    Strip(lower)
  }

  /**
   * What NormalizeTag keeps: the lower-cased tag with only surrounding
   * whitespace removed, so its inner characters all survive.
   */
  lemma {:induction false} NormalizeTagContents(tag: string)
    ensures exists a, b | 0 <= a <= b <= |tag| ::
      && NormalizeTag(tag) == ToLower(tag)[a..b]
      && (forall i | 0 <= i < a :: IsSpace(ToLower(tag)[i]))
      && (forall i | b <= i < |tag| :: IsSpace(ToLower(tag)[i]))
  {
    StripContents(ToLower(tag));
  }

  /** Normalising a normalised tag changes nothing. */
  lemma {:induction false} NormalizeTagIdempotent(tag: string)
    ensures NormalizeTag(NormalizeTag(tag)) == NormalizeTag(tag)
  {
    var t := NormalizeTag(tag);
    assert ToLower(t) == t;
    assert t == Strip(ToLower(tag));
    StripIdempotent(ToLower(tag));
  }

  /** The first stories row with the id, owned by the user when a user id is given. */
  function FirstStory(rows: seq<StoryRecord>, storyId: string, owner: Option<string>): (r: Option<StoryRecord>)
    ensures r.Some? ==> r.value.id == storyId
    ensures r.Some? && Truthy(owner) ==> r.value.userId == owner.value
    ensures r.Some? ==> exists i | 0 <= i < |rows| ::
      && rows[i] == r.value
      && forall j | 0 <= j < i :: rows[j].id != storyId || (Truthy(owner) && rows[j].userId != owner.value)
    ensures r.None? <==> forall i | 0 <= i < |rows| ::
      rows[i].id != storyId || (Truthy(owner) && rows[i].userId != owner.value)
  {
    if rows == [] then None
    else if rows[0].id == storyId && (!Truthy(owner) || rows[0].userId == owner.value) then Some(rows[0])
    else FirstStory(rows[1..], storyId, owner)
  }

  /** Rows kept by `delete().eq("id", storyId).eq("user_id", userId)`. */
  function Without(rows: seq<StoryRecord>, storyId: string, userId: string): (r: seq<StoryRecord>)
    ensures |r| <= |rows|
    ensures forall x | x in r :: x in rows && !(x.id == storyId && x.userId == userId)
    ensures forall x | x in rows && !(x.id == storyId && x.userId == userId) :: x in r
  {
    if rows == [] then []
    else
      var rest := Without(rows[1..], storyId, userId);
      if rows[0].id == storyId && rows[0].userId == userId then rest else [rows[0]] + rest
  }

  /** The delete removes a row exactly when one has both the id and the user id. */
  lemma {:induction false} WithoutShrinks(rows: seq<StoryRecord>, storyId: string, userId: string)
    ensures |Without(rows, storyId, userId)| < |rows| <==> exists x | x in rows :: x.id == storyId && x.userId == userId
    ensures |Without(rows, storyId, userId)| == |rows| ==> Without(rows, storyId, userId) == rows
    decreases |rows|
  {
    if rows != [] {
      WithoutShrinks(rows[1..], storyId, userId);
      if exists x | x in rows[1..] :: x.id == storyId && x.userId == userId {
        var x :| x in rows[1..] && x.id == storyId && x.userId == userId;
        assert x in rows;
      }
      if exists x | x in rows :: x.id == storyId && x.userId == userId {
        var x :| x in rows && x.id == storyId && x.userId == userId;
        if x != rows[0] {
          assert x in rows[1..];
        }
      }
    }
  }

  /** The rows `keep` accepts, in order: what a delete leaves of a table. */
  function KeepWhere<T>(rows: seq<T>, keep: T -> bool): (r: seq<T>)
    ensures |r| <= |rows|
    ensures forall x | x in r :: x in rows && keep(x)
    ensures forall x | x in rows && keep(x) :: x in r
  {
    if rows == [] then []
    else
      var rest := KeepWhere(rows[1..], keep);
      if keep(rows[0]) then [rows[0]] + rest else rest
  }

  /** Rows after `update({"is_favorite": f}).eq("id", storyId).eq("user_id", userId)`. */
  function WithFavorite(rows: seq<StoryRecord>, storyId: string, userId: string, favorite: bool)
    : (r: seq<StoryRecord>)
    ensures |r| == |rows|
    ensures forall i | 0 <= i < |rows| ::
      r[i] == if rows[i].id == storyId && rows[i].userId == userId then rows[i].(isFavorite := favorite) else rows[i]
  {
    seq(|rows|, i requires 0 <= i < |rows| =>
      if rows[i].id == storyId && rows[i].userId == userId then rows[i].(isFavorite := favorite) else rows[i])
  }

  // ---------------------------------------------------------------- tables

  /** The stories, characters, images and story_tags tables. */
  class StoryTables {
    var stories: seq<StoryRecord>
    var characters: seq<Supabase.CharacterRow>
    var images: seq<Supabase.ImageRow>
    var tags: seq<TagRow>

    constructor()
      ensures stories == [] && characters == [] && images == [] && tags == []
    {
      stories, characters, images, tags := [], [], [], [];
    }

    /** get_story_by_id: the first matching row; a falsy user id skips the ownership test. */
    function GetStoryById(storyId: string, userId: Option<string>): (r: Option<StoryRecord>)
      reads this
      ensures r == FirstStory(stories, storyId, userId)
    {
      FirstStory(stories, storyId, userId)
    }

    /**
     * create_story: inserts a row under the fresh id with the language name
     * mapped to its code, not a favourite and never played, and returns the id.
     */
    method CreateStory(userId: string, title: string, textContent: string, language: string, theme: string,
                       duration: int, audioUrl: string, storagePath: Option<string>,
                       backgroundMusicId: Option<string>, freshId: string, now: int)
      returns (storyId: Option<string>)
      modifies this
      ensures storyId == Some(freshId)
      ensures |stories| == |old(stories)| + 1 && stories[..|old(stories)|] == old(stories)
      ensures var row := stories[|stories| - 1];
        && row.id == freshId && row.userId == userId && row.language == Supabase.LanguageCode(language)
        && !row.isFavorite && row.playCount == 0 && row.createdAt == now
        && row.title == title && row.textContent == textContent && row.theme == theme && row.duration == duration
        && row.audioUrl == audioUrl && row.storagePath == storagePath && row.backgroundMusicId == backgroundMusicId
      ensures characters == old(characters) && images == old(images) && tags == old(tags)
    {
      var row := StoryRecord(freshId, userId, title, textContent, Supabase.LanguageCode(language), theme,
                             duration, audioUrl, storagePath, backgroundMusicId, now, false, 0);
      stories := stories + [row];
      storyId := Some(freshId);
    }

    /**
     * add_story_characters: nothing for an empty list; otherwise one row per
     * character, sent in batches of at most ten, appended in order.
     */
    method AddStoryCharacters(storyId: string, chars: seq<Supabase.CharacterDict>)
      returns (ok: bool, batches: seq<seq<Supabase.CharacterRow>>)
      modifies this
      ensures ok
      ensures chars == [] ==> batches == []
      ensures Supabase.Flatten(batches) == Supabase.CharacterRows(storyId, chars)
      ensures forall b | 0 <= b < |batches| :: 0 < |batches[b]| <= Supabase.BatchSize
      ensures characters == old(characters) + Supabase.CharacterRows(storyId, chars)
      ensures stories == old(stories) && images == old(images) && tags == old(tags)
    {
      ok := true;
      if chars == [] {
        return ok, [];
      }
      var rows := Supabase.CharacterRows(storyId, chars);
      batches := Supabase.InsertInBatches(rows);
      characters := characters + rows;
    }

    /**
     * add_story_images: nothing for an empty list; otherwise one row per path,
     * indexed by position, sent in batches of at most ten, appended in order.
     */
    method AddStoryImages(storyId: string, userId: string, paths: seq<string>)
      returns (ok: bool, batches: seq<seq<Supabase.ImageRow>>)
      modifies this
      ensures ok
      ensures paths == [] ==> batches == []
      ensures Supabase.Flatten(batches) == Supabase.ImageRows(storyId, userId, paths)
      ensures forall b | 0 <= b < |batches| :: 0 < |batches[b]| <= Supabase.BatchSize
      ensures images == old(images) + Supabase.ImageRows(storyId, userId, paths)
      ensures stories == old(stories) && characters == old(characters) && tags == old(tags)
    {
      ok := true;
      if paths == [] {
        return ok, [];
      }
      var rows := Supabase.ImageRows(storyId, userId, paths);
      batches := Supabase.InsertInBatches(rows);
      images := images + rows;
    }

    /** add_story_tags: one normalised row per tag, in one insert. */
    method AddStoryTags(storyId: string, newTags: seq<string>) returns (ok: bool)
      modifies this
      ensures ok
      ensures |tags| == |old(tags)| + |newTags| && tags[..|old(tags)|] == old(tags)
      ensures forall i | 0 <= i < |newTags| :: tags[|old(tags)| + i] == TagRow(storyId, NormalizeTag(newTags[i]))
      ensures stories == old(stories) && characters == old(characters) && images == old(images)
    {
      ok := true;
      if newTags == [] {
        return;
      }
      var rows := seq(|newTags|, i requires 0 <= i < |newTags| => TagRow(storyId, NormalizeTag(newTags[i])));
      tags := tags + rows;
    }

    /**
     * update_story_favorite: False and no write unless the ownership lookup
     * finds the story; otherwise the user's rows with the id get the flag.
     */
    method UpdateStoryFavorite(storyId: string, userId: string, isFavorite: bool) returns (ok: bool)
      modifies this
      ensures ok <==> old(GetStoryById(storyId, Some(userId))).Some?
      ensures !ok ==> stories == old(stories)
      ensures ok ==> stories == WithFavorite(old(stories), storyId, userId, isFavorite)
      ensures characters == old(characters) && images == old(images) && tags == old(tags)
    {
      var story := GetStoryById(storyId, Some(userId));
      if story.None? {
        return false;
      }
      stories := WithFavorite(stories, storyId, userId, isFavorite);
      ok := true;
    }

    /** The database's cascade: the characters, images and tags of a deleted story go. */
    method CascadeDelete(storyId: string)
      modifies this
      ensures stories == old(stories)
      ensures characters == KeepWhere(old(characters), (c: Supabase.CharacterRow) => c.storyId != storyId)
      ensures images == KeepWhere(old(images), (i: Supabase.ImageRow) => i.storyId != storyId)
      ensures tags == KeepWhere(old(tags), (t: TagRow) => t.storyId != storyId)
      ensures forall c | c in characters :: c.storyId != storyId
      ensures forall i | i in images :: i.storyId != storyId
      ensures forall t | t in tags :: t.storyId != storyId
    {
      characters := KeepWhere(characters, (c: Supabase.CharacterRow) => c.storyId != storyId);
      images := KeepWhere(images, (i: Supabase.ImageRow) => i.storyId != storyId);
      tags := KeepWhere(tags, (t: TagRow) => t.storyId != storyId);
    }

    /**
     * delete_story: False and no write unless the ownership lookup finds the
     * story; otherwise the user's rows with the id are removed, and when a
     * row really went, the database cascades the delete to the characters,
     * images and tags of that story (story ids are primary keys, so no
     * other story shares it). A falsy user id finds the story without the
     * ownership test, but its delete matches no row and cascades nothing.
     */
    method DeleteStory(storyId: string, userId: string) returns (ok: bool)
      modifies this
      ensures ok <==> old(GetStoryById(storyId, Some(userId))).Some?
      ensures ok ==> stories == Without(old(stories), storyId, userId)
      ensures ok && userId != "" ==> |stories| < |old(stories)|
      ensures ok && |stories| < |old(stories)| ==>
        && characters == KeepWhere(old(characters), (c: Supabase.CharacterRow) => c.storyId != storyId)
        && images == KeepWhere(old(images), (i: Supabase.ImageRow) => i.storyId != storyId)
        && tags == KeepWhere(old(tags), (t: TagRow) => t.storyId != storyId)
        && (forall c | c in characters :: c.storyId != storyId)
        && (forall i | i in images :: i.storyId != storyId)
        && (forall t | t in tags :: t.storyId != storyId)
      ensures !(ok && |stories| < |old(stories)|) ==>
        stories == old(stories) && characters == old(characters) && images == old(images) && tags == old(tags)
      ensures userId != "" ==> GetStoryById(storyId, Some(userId)).None?
    {
      var story := GetStoryById(storyId, Some(userId));
      if story.None? {
        return false;
      }
      WithoutShrinks(stories, storyId, userId);
      if userId != "" {
        assert story.value in stories && story.value.id == storyId && story.value.userId == userId;
      }
      var kept := Without(stories, storyId, userId);
      if |kept| < |stories| {
        stories := kept;
        CascadeDelete(storyId);
      }
      ok := true;
    }
  }
}
