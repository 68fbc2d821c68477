/** The in-memory records of the story client: a Story, the global StoryList
    and the signed-in User, together with the searches over them. */
module Models {
  import opened Wrappers

  /** A plain story object as the remote service sends it. */
  datatype StoryData = StoryData(
    storyId: string, title: string, author: string,
    url: string, username: string, createdAt: string)

  /** A plain user object as the remote service sends it; a list the object
      does not carry at all is None. */
  datatype UserData = UserData(
    username: string, name: string, createdAt: string,
    favorites: Option<seq<StoryData>>, ownStories: Option<seq<StoryData>>)

  /** The list a destructuring default `= []` yields. */
  function OrEmpty(list: Option<seq<StoryData>>): (ds: seq<StoryData>)
  {
    match list
    case None => []
    case Some(ds) => ds
  }

  /** A single story. Its fields are set once, by the constructor. */
  class Story {
    const storyId: string
    const title: string
    const author: string
    const url: string
    const username: string
    const createdAt: string

    /** This story carries exactly the six fields of `d`. */
    predicate Mirrors(d: StoryData)
    {
      storyId == d.storyId && title == d.title && author == d.author &&
      url == d.url && username == d.username && createdAt == d.createdAt
    }

    constructor (d: StoryData)
      ensures Mirrors(d)
    {
      storyId := d.storyId;
      title := d.title;
      author := d.author;
      url := d.url;
      username := d.username;
      createdAt := d.createdAt;
    }

    /** True iff one of the user's favorites has this story's id. */
    method IsFavoritedBy(user: User) returns (favorited: bool)
      ensures favorited <==> ContainsId(user.favorites, storyId)
    {
      favorited := SearchId(user.favorites, storyId);
    }

    /** True iff one of the user's own stories has this story's id. */
    method IsOwnedBy(user: User) returns (owned: bool)
      ensures owned <==> ContainsId(user.ownStories, storyId)
    {
      owned := SearchId(user.ownStories, storyId);
    }
  }

  /** Some story in `stories` has the id `id`. */
  predicate ContainsId(stories: seq<Story>, id: string)
  {
    exists i :: 0 <= i < |stories| && stories[i].storyId == id
  }

  /** No two stories in `stories` share an id. */
  predicate UniqueIds(stories: seq<Story>)
  {
    forall i, j :: 0 <= i < j < |stories| ==> stories[i].storyId != stories[j].storyId
  }

  /** `stories` is the element-wise conversion of `ds`: same length, same order. */
  predicate AllMirror(stories: seq<Story>, ds: seq<StoryData>)
  {
    |stories| == |ds| && forall i :: 0 <= i < |ds| ==> stories[i].Mirrors(ds[i])
  }

  /** The early-return loop of isFavoritedBy and isOwnedBy. */
  method SearchId(stories: seq<Story>, id: string) returns (found: bool)
    ensures found <==> ContainsId(stories, id)
  {
    for i := 0 to |stories|
      invariant forall j :: 0 <= j < i ==> stories[j].storyId != id
    {
      if stories[i].storyId == id {
        return true;
      }
    }
    return false;
  }

  /** `ds.map(s => new Story(s))`. */
  method StoriesFromData(ds: seq<StoryData>) returns (stories: seq<Story>)
    ensures AllMirror(stories, ds)
  {
    stories := [];
    for i := 0 to |ds|
      invariant AllMirror(stories, ds[..i])
    {
      var s := new Story(ds[i]);
      stories := stories + [s];
    }
    assert ds[..|ds|] == ds;
  }

  /** Array.prototype.findIndex with the predicate `story.storyId === id`:
      the first index whose story has the id, or -1 when there is none. */
  function FindIndex(stories: seq<Story>, id: string): (r: int)
    ensures -1 <= r < |stories|
    ensures r == -1 <==> !ContainsId(stories, id)
    ensures 0 <= r ==> stories[r].storyId == id
    ensures 0 <= r ==> forall j :: 0 <= j < r ==> stories[j].storyId != id
  {
    if |stories| == 0 then -1
    else if stories[0].storyId == id then 0
    else
      var k := FindIndex(stories[1..], id);
      assert forall j :: 0 < j < |stories| ==> stories[j] == stories[1..][j - 1];
      if k == -1 then -1 else k + 1
  }

  /** The ordered list of stories shown on the page. */
  class StoryList {
    var stories: seq<Story>

    constructor (stories: seq<Story>)
      ensures this.stories == stories
    {
      this.stories := stories;
    }

    /** Index of the first story with id `id`, or -1; reads the list only. */
    function GetStoryIndexById(id: string): (r: int)
      reads this
      ensures -1 <= r < |stories|
      ensures r == -1 <==> !ContainsId(stories, id)
      ensures 0 <= r ==> stories[r].storyId == id
      ensures 0 <= r ==> forall j :: 0 <= j < r ==> stories[j].storyId != id
    {
      FindIndex(stories, id)
    }
  }

  /** The signed-in user. */
  class User {
    const username: string
    const name: string
    const createdAt: string
    const loginToken: string
    var favorites: seq<Story>
    var ownStories: seq<Story>

    constructor (d: UserData, token: string)
      ensures username == d.username && name == d.name && createdAt == d.createdAt
      ensures loginToken == token
      ensures AllMirror(favorites, OrEmpty(d.favorites))
      ensures AllMirror(ownStories, OrEmpty(d.ownStories))
    {
      username := d.username;
      name := d.name;
      createdAt := d.createdAt;
      var favs := StoriesFromData(OrEmpty(d.favorites));
      var owns := StoriesFromData(OrEmpty(d.ownStories));
      favorites := favs;
      ownStories := owns;
      loginToken := token;
    }

    /** The local part of toggleFavorite: the favorites become the list in
        the service's updated user, converted element-wise. */
    method ToggleFavorite(serverFavorites: seq<StoryData>)
      modifies this
      ensures AllMirror(favorites, serverFavorites)
      ensures ownStories == old(ownStories)
    {
      favorites := StoriesFromData(serverFavorites);
    }
  }

  /** A story is in a converted list exactly when the service's list has its id:
      after toggleFavorite, isFavoritedBy answers from the service's reply. */
  lemma AllMirrorContainsId(stories: seq<Story>, ds: seq<StoryData>, id: string)
    requires AllMirror(stories, ds)
    ensures ContainsId(stories, id) <==> exists j :: 0 <= j < |ds| && ds[j].storyId == id
  {
    if ContainsId(stories, id) {
      var i :| 0 <= i < |stories| && stories[i].storyId == id;
      assert ds[i].storyId == id;
    }
    if exists j :: 0 <= j < |ds| && ds[j].storyId == id {
      var j :| 0 <= j < |ds| && ds[j].storyId == id;
      assert stories[j].storyId == id;
    }
  }

  /** findIndex returns the one index that is a first match. */
  lemma FindIndexIsFirstMatch(stories: seq<Story>, id: string, k: int)
    requires 0 <= k < |stories| && stories[k].storyId == id
    requires forall j :: 0 <= j < k ==> stories[j].storyId != id
    ensures FindIndex(stories, id) == k
  {
    assert ContainsId(stories, id);
  }

  /** Prepending a story shifts every other first match by one. */
  lemma FindIndexPrepend(s: Story, stories: seq<Story>, id: string)
    ensures FindIndex([s] + stories, id) ==
      if s.storyId == id then 0
      else if FindIndex(stories, id) == -1 then -1
      else FindIndex(stories, id) + 1
  {
    assert ([s] + stories)[1..] == stories;
  }

  /** With distinct ids, a story is found exactly at its own index. */
  lemma FindIndexUnique(stories: seq<Story>, k: int)
    requires UniqueIds(stories) && 0 <= k < |stories|
    ensures FindIndex(stories, stories[k].storyId) == k
  {
    FindIndexIsFirstMatch(stories, stories[k].storyId, k);
  }

  /** Prepending a story whose id is new keeps ids distinct. */
  lemma PrependKeepsUniqueIds(s: Story, stories: seq<Story>)
    requires UniqueIds(stories) && !ContainsId(stories, s.storyId)
    ensures UniqueIds([s] + stories)
  {
    forall i, j | 0 <= i < j < |[s] + stories|
      ensures ([s] + stories)[i].storyId != ([s] + stories)[j].storyId
    {
      if i == 0 {
        assert ([s] + stories)[j] == stories[j - 1];
      }
    }
  }

  /** Replacing the story at an id's index by one with the same id keeps ids
      distinct and keeps that index the first match. */
  lemma ReplaceKeepsIndex(stories: seq<Story>, id: string, s: Story)
    requires FindIndex(stories, id) >= 0 && s.storyId == id
    ensures FindIndex(stories[FindIndex(stories, id) := s], id) == FindIndex(stories, id)
    ensures UniqueIds(stories) ==> UniqueIds(stories[FindIndex(stories, id) := s])
  {
    var k := FindIndex(stories, id);
    FindIndexIsFirstMatch(stories[k := s], id, k);
  }
}
