/** The page handlers of the story client, with every request to the remote
    service replaced by the reply it produced: the local mirror updates after
    a submit, an edit or a favorite toggle, the markup decisions for one story,
    the favorites page, and the status-code messages. */
module Stories {
  import opened Wrappers
  import opened Models

  // ---------------------------------------------------------------------------
  // The `data-favorited` attribute

  /** Boolean.prototype.toString. */
  function FlagText(b: bool): (text: string)
  {
    if b then "true" else "false"
  }

  /** `attr('data-favorited') === 'true'`. */
  function ReadFlag(attr: string): (favorited: bool)
  {
    attr == "true"
  }

  lemma FlagRoundTrip(b: bool)
    ensures ReadFlag(FlagText(b)) == b
  {
  }

  /** The favorite symbol a story shows: '-' to unfavorite, '+' to favorite. */
  function FavSymbol(favorited: bool): (symbol: char)
  {
    if favorited then '-' else '+'
  }

  // ---------------------------------------------------------------------------
  // Markup of one story

  /** The favorite button: its symbol and whether it carries the
      `favorite-icon-noHover` class (otherwise `favorite-icon`). */
  datatype FavButton = FavButton(symbol: char, noHover: bool)

  /** What the markup of one story item shows, leaving out its text: the item
      id, the favorite button if any, the `story-favorited` class, the
      `data-favorited` attribute and the edit and delete buttons. */
  datatype Markup = Markup(
    storyId: string, favButton: Option<FavButton>, favoritedClass: bool,
    favoritedAttr: string, editButton: bool, deleteButton: bool)
  {
    /** The attribute is a canonical flag, and the class and the button agree with it. */
    predicate Consistent()
    {
      var f := ReadFlag(favoritedAttr);
      favoritedAttr == FlagText(f) && favoritedClass == f &&
      (favButton.Some? ==> favButton.value == FavButton(FavSymbol(f), f))
    }
  }

  /** The markup generateStoryMarkup builds for `story` when `currentUser`
      is signed in (or null). */
  function StoryMarkup(story: Story, currentUser: User?): (m: Markup)
    reads currentUser
    ensures m.storyId == story.storyId
    ensures m.Consistent()
    ensures currentUser == null ==>
      m.favButton == None && !m.editButton && !m.deleteButton &&
      !m.favoritedClass && !ReadFlag(m.favoritedAttr)
    ensures currentUser != null ==>
      m.favButton.Some? &&
      (m.editButton <==> ContainsId(currentUser.ownStories, story.storyId)) &&
      (m.deleteButton <==> ContainsId(currentUser.ownStories, story.storyId)) &&
      (m.favButton.value.symbol == '-' <==> ContainsId(currentUser.favorites, story.storyId)) &&
      (m.favoritedClass <==> ContainsId(currentUser.favorites, story.storyId)) &&
      (ReadFlag(m.favoritedAttr) <==> ContainsId(currentUser.favorites, story.storyId))
  {
    if currentUser == null then
      Markup(story.storyId, None, false, FlagText(false), false, false)
    else
      var favorited := ContainsId(currentUser.favorites, story.storyId);
      var owned := ContainsId(currentUser.ownStories, story.storyId);
      Markup(story.storyId, Some(FavButton(FavSymbol(favorited), favorited)),
             favorited, FlagText(favorited), owned, owned)
  }

  /** The markup after updateFavoritedCSS($li, favorited): both icon classes
      toggled, the new symbol written, `story-favorited` toggled, and the
      attribute set to the negated flag. A missing button stays missing. */
  function FavoritedCSSUpdated(m: Markup, favorited: bool): (updated: Markup)
  {
    m.(favButton := match m.favButton
                    case None => None
                    case Some(b) => Some(FavButton(if favorited then '+' else '-', !b.noHover)),
       favoritedClass := !m.favoritedClass,
       favoritedAttr := FlagText(!favorited))
  }

  /** Updating with the flag the item shows negates that flag. */
  lemma UpdateFlipsFlag(m: Markup)
    ensures ReadFlag(FavoritedCSSUpdated(m, ReadFlag(m.favoritedAttr)).favoritedAttr)
            == !ReadFlag(m.favoritedAttr)
  {
    FlagRoundTrip(!ReadFlag(m.favoritedAttr));
  }

  /** Updating a consistent item with the flag it shows keeps it consistent. */
  lemma UpdateKeepsConsistent(m: Markup)
    requires m.Consistent()
    ensures FavoritedCSSUpdated(m, ReadFlag(m.favoritedAttr)).Consistent()
  {
    FlagRoundTrip(!ReadFlag(m.favoritedAttr));
  }

  /** Two toggles in a row give back the item as it was. */
  lemma UpdateTwiceRestores(m: Markup)
    requires m.Consistent()
    ensures var once := FavoritedCSSUpdated(m, ReadFlag(m.favoritedAttr));
            FavoritedCSSUpdated(once, ReadFlag(once.favoritedAttr)) == m
  {
    var f := ReadFlag(m.favoritedAttr);
    FlagRoundTrip(!f);
    FlagRoundTrip(f);
  }

  /** A story item on the page, whose classes and attributes are changed in place. */
  class StoryItem {
    var markup: Markup

    constructor (m: Markup)
      ensures markup == m
    {
      markup := m;
    }

    method UpdateFavoritedCSS(favorited: bool)
      modifies this
      ensures markup == FavoritedCSSUpdated(old(markup), favorited)
    {
      markup := FavoritedCSSUpdated(markup, favorited);
    }
  }

  /** generateStoryMarkup: asks the story whether the current user favorited
      and owns it, and builds the item accordingly. */
  method GenerateStoryMarkup(story: Story, currentUser: User?) returns (li: StoryItem)
    ensures fresh(li)
    ensures li.markup == StoryMarkup(story, currentUser)
  {
    var favButton: Option<FavButton> := None;
    var editBtn, deleteBtn, favorited := false, false, false;
    if currentUser != null {
      favorited := story.IsFavoritedBy(currentUser);
      var owned := story.IsOwnedBy(currentUser);
      favButton := Some(FavButton(FavSymbol(favorited), favorited));
      deleteBtn := owned;
      editBtn := owned;
    }
    li := new StoryItem(Markup(story.storyId, favButton, favorited, FlagText(favorited),
                               editBtn, deleteBtn));
  }

  // ---------------------------------------------------------------------------
  // Pages

  /** One element appended to the list of stories on the page. */
  datatype PageEntry = Notification(text: string) | Item(li: StoryItem)

  const NoFavoritesMsg := "Try favoriting some stories first!"

  /** No page element is appended twice: every item is its own element. */
  predicate DistinctItems(page: seq<PageEntry>)
  {
    forall i, j :: 0 <= i < j < |page| && page[i].Item? && page[j].Item? ==> page[i].li != page[j].li
  }

  /** putStoriesOnPage: one item per story of the list, in order. */
  method PutStoriesOnPage(list: StoryList, currentUser: User?) returns (page: seq<PageEntry>)
    ensures |page| == |list.stories|
    ensures forall i :: 0 <= i < |page| ==>
      page[i].Item? && fresh(page[i].li) &&
      page[i].li.markup == StoryMarkup(list.stories[i], currentUser)
    ensures DistinctItems(page)
  {
    page := [];
    for i := 0 to |list.stories|
      invariant |page| == i
      invariant forall j :: 0 <= j < i ==>
        page[j].Item? && fresh(page[j].li) &&
        page[j].li.markup == StoryMarkup(list.stories[j], currentUser)
      invariant DistinctItems(page)
    {
      var li := GenerateStoryMarkup(list.stories[i], currentUser);
      page := page + [Item(li)];
    }
  }

  /** putFavoritesOnPage: a single notification when there is no favorite,
      otherwise one item per favorite, in order. The source reads
      `currentUser.favorites`, so a user is required. */
  method PutFavoritesOnPage(currentUser: User) returns (page: seq<PageEntry>)
    ensures |currentUser.favorites| == 0 ==> page == [Notification(NoFavoritesMsg)]
    ensures |currentUser.favorites| > 0 ==>
      |page| == |currentUser.favorites| &&
      forall i :: 0 <= i < |page| ==>
        page[i].Item? && fresh(page[i].li) &&
        page[i].li.markup == StoryMarkup(currentUser.favorites[i], currentUser)
    ensures DistinctItems(page)
  {
    if |currentUser.favorites| < 1 {
      page := [Notification(NoFavoritesMsg)];
    } else {
      page := [];
      for i := 0 to |currentUser.favorites|
        invariant |page| == i
        invariant forall j :: 0 <= j < i ==>
          page[j].Item? && fresh(page[j].li) &&
          page[j].li.markup == StoryMarkup(currentUser.favorites[j], currentUser)
        invariant DistinctItems(page)
      {
        var li := GenerateStoryMarkup(currentUser.favorites[i], currentUser);
        page := page + [Item(li)];
      }
    }
  }

  // ---------------------------------------------------------------------------
  // Status-code messages

  const UnreachableMsg := "Error: Could not reach API at this time."

  const SubmitBadUrlMsg := "A valid URL is required for all stories.\n(E.g. http://example.com)"
  const SubmitLoginMsg := "Error: You must be logged in to submit a story."

  /** The message submitNewStory shows for a failed submit. */
  function SubmitFailureText(code: Option<int>): (text: string)
    ensures text == SubmitBadUrlMsg <==> code == Some(400)
    ensures text == SubmitLoginMsg <==> code == Some(401)
    ensures text == UnreachableMsg <==> code != Some(400) && code != Some(401)
  {
    match code
    case Some(400) => SubmitBadUrlMsg
    case Some(401) => SubmitLoginMsg
    case _ => UnreachableMsg
  }

  const FavoriteLoginMsg := "You must be logged in to favorite stories"
  const FavoriteNotFoundMsg := "Error: The story you are trying to favorite could not be located."

  /** The alert toggleUserFavorite raises for a failed toggle. */
  function FavoriteFailureText(code: Option<int>): (text: string)
    ensures text == FavoriteLoginMsg <==> code == Some(401)
    ensures text == FavoriteNotFoundMsg <==> code == Some(404)
    ensures text == UnreachableMsg <==> code != Some(401) && code != Some(404)
  {
    match code
    case Some(401) => FavoriteLoginMsg
    case Some(404) => FavoriteNotFoundMsg
    case _ => UnreachableMsg
  }

  const DeleteNotFoundMsg := "Error: The story you are trying to delete could not be located."
  const DeleteForbiddenMsg := "Error: You do not have permission to delete that story."
  const DeleteLoginMsg := "Error: You must be logged in to delete your stories."

  /** The alert deleteStoryClick raises for a failed delete. */
  function DeleteFailureText(code: Option<int>): (text: string)
    ensures text == DeleteNotFoundMsg <==> code == Some(404)
    ensures text == DeleteForbiddenMsg <==> code == Some(403)
    ensures text == DeleteLoginMsg <==> code == Some(401)
    ensures text == UnreachableMsg <==> code !in {Some(404), Some(403), Some(401)}
  {
    match code
    case Some(404) => DeleteNotFoundMsg
    case Some(403) => DeleteForbiddenMsg
    case Some(401) => DeleteLoginMsg
    case _ => UnreachableMsg
  }

  const EditNotFoundMsg := "Error: The story you are trying to edit could not be located."
  const EditForbiddenMsg := "Error: You may only edit your own stories."
  const EditLoginMsg := "Error: You must be logged in to edit your stories."
  const EditBadUrlMsg := "A valid URL is required for all stories.\n(E.g. http://example.com)."
  const EditUnreachableMsg := "Error: Could not reach the API at this time."

  /** The message submitEditForm shows for a failed edit. */
  function EditFailureText(code: Option<int>): (text: string)
    ensures text == EditNotFoundMsg <==> code == Some(404)
    ensures text == EditForbiddenMsg <==> code == Some(403)
    ensures text == EditLoginMsg <==> code == Some(401)
    ensures text == EditBadUrlMsg <==> code == Some(400)
    ensures text == EditUnreachableMsg <==> code !in {Some(404), Some(403), Some(401), Some(400)}
  {
    match code
    case Some(404) => EditNotFoundMsg
    case Some(403) => EditForbiddenMsg
    case Some(401) => EditLoginMsg
    case Some(400) => EditBadUrlMsg
    case _ => EditUnreachableMsg
  }

  // ---------------------------------------------------------------------------
  // Handlers

  /** submitNewStory, given the service's reply to addStory. With no user the
      request cannot be built, which fails without a status. */
  method SubmitNewStory(list: StoryList, currentUser: User?, reply: Reply<StoryData>)
    returns (error: Option<string>)
    modifies list, currentUser
    ensures currentUser != null && reply.Success? ==>
      error == None &&
      |list.stories| == |old(list.stories)| + 1 &&
      list.stories[0].Mirrors(reply.value) &&
      list.stories[1..] == old(list.stories) &&
      currentUser.ownStories == old(currentUser.ownStories) + [list.stories[0]] &&
      currentUser.favorites == old(currentUser.favorites) &&
      fresh(list.stories[0])
    ensures currentUser != null && reply.Success? ==>
      list.GetStoryIndexById(reply.value.storyId) == 0 &&
      (forall id :: id != reply.value.storyId ==>
         list.GetStoryIndexById(id) ==
           if old(list.GetStoryIndexById(id)) == -1 then -1 else old(list.GetStoryIndexById(id)) + 1) &&
      (UniqueIds(old(list.stories)) && !ContainsId(old(list.stories), reply.value.storyId) ==>
         UniqueIds(list.stories))
    ensures currentUser == null || reply.Failure? ==>
      error == Some(SubmitFailureText(if currentUser == null then None else reply.status)) &&
      list.stories == old(list.stories) &&
      (currentUser != null ==>
        currentUser.ownStories == old(currentUser.ownStories) &&
        currentUser.favorites == old(currentUser.favorites))
  {
    if currentUser == null {
      return Some(SubmitFailureText(None));
    }
    match reply
    case Failure(code) =>
      error := Some(SubmitFailureText(code));
    case Success(d) =>
      var newStory := new Story(d);
      ghost var before := list.stories;
      list.stories := [newStory] + list.stories;
      currentUser.ownStories := currentUser.ownStories + [newStory];
      error := None;
      forall id
        ensures FindIndex(list.stories, id) ==
          if newStory.storyId == id then 0
          else if FindIndex(before, id) == -1 then -1
          else FindIndex(before, id) + 1
      {
        FindIndexPrepend(newStory, before, id);
      }
      if UniqueIds(before) && !ContainsId(before, d.storyId) {
        PrependKeepsUniqueIds(newStory, before);
      }
  }

  /** submitEditForm, given the service's reply to editStory. The edited story
      replaces the first story with the edited id; when there is none, the
      assignment to index -1 leaves the elements as they were. */
  method SubmitEditForm(list: StoryList, currentUser: User?, storyId: string, reply: Reply<StoryData>)
    returns (error: Option<string>)
    modifies list
    ensures currentUser != null && reply.Success? ==>
      error == None &&
      |list.stories| == |old(list.stories)| &&
      var k := old(list.GetStoryIndexById(storyId));
      (0 <= k ==> list.stories[k].Mirrors(reply.value)) &&
      (forall j :: 0 <= j < |list.stories| && j != k ==> list.stories[j] == old(list.stories)[j])
    ensures currentUser != null && reply.Success? && reply.value.storyId == storyId ==>
      list.GetStoryIndexById(storyId) == old(list.GetStoryIndexById(storyId)) &&
      (UniqueIds(old(list.stories)) ==> UniqueIds(list.stories))
    ensures currentUser == null || reply.Failure? ==>
      error == Some(EditFailureText(if currentUser == null then None else reply.status)) &&
      list.stories == old(list.stories)
  {
    if currentUser == null {
      return Some(EditFailureText(None));
    }
    match reply
    case Failure(code) =>
      error := Some(EditFailureText(code));
    case Success(d) =>
      var editedStory := new Story(d);
      var editIdx := list.GetStoryIndexById(storyId);
      if 0 <= editIdx {
        if d.storyId == storyId {
          ReplaceKeepsIndex(list.stories, storyId, editedStory);
        }
        list.stories := list.stories[editIdx := editedStory];
      }
      error := None;
  }

  /** The request toggleFavorite sends: its HTTP method and the story id. */
  datatype FavoriteRequest = FavoriteRequest(httpMethod: string, storyId: string)

  /** The method toggleUserFavorite picks from the flag the item shows. */
  function FavoriteMethod(favorited: bool): (m: string)
    ensures m == "delete" <==> favorited
    ensures m == "post" <==> !favorited
  {
    if favorited then "delete" else "post"
  }

  /** toggleUserFavorite on the clicked item `li`, given the service's reply
      (the updated user's favorites). */
  method ToggleUserFavorite(li: StoryItem, currentUser: User?, reply: Reply<seq<StoryData>>)
    returns (request: Option<FavoriteRequest>, alert: Option<string>)
    modifies li, currentUser
    ensures currentUser == null ==>
      request == None && alert == Some(FavoriteFailureText(None)) && li.markup == old(li.markup)
    ensures currentUser != null ==>
      request == Some(FavoriteRequest(FavoriteMethod(ReadFlag(old(li.markup.favoritedAttr))),
                                      old(li.markup.storyId))) &&
      currentUser.ownStories == old(currentUser.ownStories)
    ensures currentUser != null && reply.Success? ==>
      alert == None &&
      AllMirror(currentUser.favorites, reply.value) &&
      li.markup == FavoritedCSSUpdated(old(li.markup), ReadFlag(old(li.markup.favoritedAttr)))
    ensures currentUser != null && reply.Failure? ==>
      alert == Some(FavoriteFailureText(reply.status)) &&
      currentUser.favorites == old(currentUser.favorites) &&
      li.markup == old(li.markup)
  {
    var storyId := li.markup.storyId;
    var favorited := ReadFlag(li.markup.favoritedAttr);
    var httpMethod := FavoriteMethod(favorited);
    if currentUser == null {
      return None, Some(FavoriteFailureText(None));
    }
    request := Some(FavoriteRequest(httpMethod, storyId));
    match reply
    case Failure(code) =>
      alert := Some(FavoriteFailureText(code));
    case Success(favorites) =>
      currentUser.ToggleFavorite(favorites);
      li.UpdateFavoritedCSS(favorited);
      alert := None;
  }
}
