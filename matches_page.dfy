/**
 * The dashboard's matches page: on mount, fetchMatches asks the Supabase
 * client for the signed-in user, the ids matched to that user, their profile
 * rows and their photo rows, and merges profiles and photos into the list the
 * page shows. The page's React state (matches, loading) and the router's
 * pushes are the fields of a class; the Supabase answers are inputs.
 */
module Matches {
  import opened Wrappers

  datatype User = User(id: string)

  /** A row of `matches`, reduced to the selected column. */
  datatype MatchRow = MatchRow(matchedUserId: string)

  /** A row of `profiles` (id, full_name, age); a null column is None. */
  datatype ProfileRow = ProfileRow(id: string, fullName: Option<string>, age: Option<int>)

  /** A row of `profileurl` (user_id, photo_url). */
  datatype UrlRow = UrlRow(userId: string, photoUrl: Option<string>)

  datatype MatchProfile = MatchProfile(id: string, name: string, age: Option<int>, photo: string)

  /**
   * What the Supabase client answers. A missing client (the module exports
   * null without its keys) is `available == false`; each query's `data` is
   * None when it came back null.
   */
  datatype Backend = Backend(
    available: bool,
    user: Option<User>,
    matchRows: string -> Option<seq<MatchRow>>,
    profiles: seq<string> -> Option<seq<ProfileRow>>,
    urls: seq<string> -> Option<seq<UrlRow>>)

  const AuthRoute := "/auth"
  const UnknownName := "Unknown"
  const PlaceholderPhoto := "/assets/cats/1.png"

  /** JavaScript truthiness of a nullable string column. */
  predicate Truthy(s: Option<string>) {
    s.Some? && s.value != ""
  }

  /** matchRows?.map(row => row.matched_user_id) || [] */
  function MatchedIds(rows: Option<seq<MatchRow>>): seq<string> {
    match rows
    case None => []
    case Some(rs) => seq(|rs|, i requires 0 <= i < |rs| => rs[i].matchedUserId)
  }

  /** photoMap after the forEach: each row sets its user's entry, so later rows win. */
  function PhotoMapOf(urls: seq<UrlRow>): map<string, Option<string>>
    decreases |urls|
  {
    if urls == [] then map[]
    else
      var last := urls[|urls| - 1];
      PhotoMapOf(urls[..|urls| - 1])[last.userId := last.photoUrl]
  }

  /** photoMap[p.id] || "/assets/cats/1.png" */
  function Photo(photoMap: map<string, Option<string>>, id: string): string {
    if id in photoMap && Truthy(photoMap[id]) then photoMap[id].value else PlaceholderPhoto
  }

  /** p.full_name || "Unknown" */
  function Name(p: ProfileRow): string {
    if Truthy(p.fullName) then p.fullName.value else UnknownName
  }

  function ToMatch(p: ProfileRow, photoMap: map<string, Option<string>>): MatchProfile {
    MatchProfile(p.id, Name(p), p.age, Photo(photoMap, p.id))
  }

  /** (profiles || []).map(...): one entry per profile row, in row order. */
  function Merge(profiles: seq<ProfileRow>, photoMap: map<string, Option<string>>): seq<MatchProfile> {
    seq(|profiles|, i requires 0 <= i < |profiles| => ToMatch(profiles[i], photoMap))
  }

  /** The page's state: matches, loading, and the routes pushed so far. */
  datatype Page = Page(matches: seq<MatchProfile>, loading: bool, routes: seq<string>)

  /** useState([]), useState(true), nothing pushed. */
  const InitialPage := Page([], true, [])

  /** The page after fetchMatches, from the page before it. */
  function Fetch(b: Backend, p: Page): Page {
    if !b.available then p.(loading := false)
    else if b.user.None? then p.(routes := p.routes + [AuthRoute])
    else
      var ids := MatchedIds(b.matchRows(b.user.value.id));
      if ids == [] then p.(loading := false)
      else
        var photoMap := PhotoMapOf(b.urls(ids).GetOr([]));
        p.(matches := Merge(b.profiles(ids).GetOr([]), photoMap), loading := false)
  }

  class MatchesPage {
    var matches: seq<MatchProfile>
    var loading: bool
    var routes: seq<string>

    function State(): Page
      reads this
    {
      Page(matches, loading, routes)
    }

    constructor()
      ensures State() == InitialPage
    {
      matches := [];
      loading := true;
      routes := [];
    }

    /** The forEach over the photo rows. */
    static method BuildPhotoMap(urls: seq<UrlRow>) returns (photoMap: map<string, Option<string>>)
      ensures photoMap == PhotoMapOf(urls)
    {
      photoMap := map[];
      for i := 0 to |urls|
        invariant photoMap == PhotoMapOf(urls[..i])
      {
        assert urls[..i + 1][..i] == urls[..i];
        photoMap := photoMap[urls[i].userId := urls[i].photoUrl];
      }
      assert urls[..|urls|] == urls;
    }

    method FetchMatches(b: Backend)
      modifies this
      ensures State() == Fetch(b, old(State()))
    {
      if !b.available {
        loading := false;
        return;
      }
      if b.user.None? {
        routes := routes + [AuthRoute];
        return;
      }
      var user := b.user.value;
      var matchRows := b.matchRows(user.id);
      var matchedIds := MatchedIds(matchRows);
      if |matchedIds| == 0 {
        loading := false;
        return;
      }
      var profiles := b.profiles(matchedIds);
      var urls := b.urls(matchedIds);
      var photoMap: map<string, Option<string>> := map[];
      if urls.Some? {
        photoMap := BuildPhotoMap(urls.value);
      }
      var mapped := Merge(profiles.GetOr([]), photoMap);
      matches := mapped;
      loading := false;
    }
  }

  // ------------------------------------------------------------------
  // Properties

  /** Without a client, loading ends and the list stays empty; nothing is pushed. */
  lemma NoClient(b: Backend)
    requires !b.available
    ensures Fetch(b, InitialPage) == Page([], false, [])
  {
  }

  /** Without a user, the page goes to /auth and never stops loading. */
  lemma NoUser(b: Backend)
    requires b.available && b.user.None?
    ensures Fetch(b, InitialPage) == Page([], true, [AuthRoute])
  {
  }

  /** With no matched ids, the list is left as initialised and loading ends. */
  lemma NoMatchedIds(b: Backend)
    requires b.available && b.user.Some? && MatchedIds(b.matchRows(b.user.value.id)) == []
    ensures Fetch(b, InitialPage) == Page([], false, [])
  {
  }

  /** Once the page is fetched, it is still loading exactly when it was sent to /auth. */
  lemma LoadingIffRedirected(b: Backend)
    ensures var p := Fetch(b, InitialPage);
      p.loading <==> p.routes == [AuthRoute]
    ensures var p := Fetch(b, InitialPage);
      p.routes == [] || p.routes == [AuthRoute]
  {
  }

  /** The matched ids are the matched_user_id column, in row order; a null answer gives none. */
  lemma MatchedIdsColumn(rows: Option<seq<MatchRow>>)
    ensures rows.None? ==> MatchedIds(rows) == []
    ensures rows.Some? ==>
      (|MatchedIds(rows)| == |rows.value|
       && forall i :: 0 <= i < |rows.value| ==> MatchedIds(rows)[i] == rows.value[i].matchedUserId)
  {
  }

  /** photoMap has an entry exactly for the users some photo row names. */
  lemma {:induction false} PhotoMapKeys(urls: seq<UrlRow>, id: string)
    ensures id in PhotoMapOf(urls) <==> exists j :: 0 <= j < |urls| && urls[j].userId == id
    decreases |urls|
  {
    if urls != [] {
      var init := urls[..|urls| - 1];
      PhotoMapKeys(init, id);
      if id in PhotoMapOf(init) {
        var j :| 0 <= j < |init| && init[j].userId == id;
        assert urls[j].userId == id;
      }
      if exists j :: 0 <= j < |urls| && urls[j].userId == id {
        var j :| 0 <= j < |urls| && urls[j].userId == id;
        if j < |init| {
          assert init[j].userId == id;
        }
      }
    }
  }

  /** The last photo row for a user is the one photoMap keeps. */
  lemma {:induction false} PhotoMapLastWins(urls: seq<UrlRow>, j: nat)
    requires j < |urls|
    requires forall k :: j < k < |urls| ==> urls[k].userId != urls[j].userId
    ensures urls[j].userId in PhotoMapOf(urls) && PhotoMapOf(urls)[urls[j].userId] == urls[j].photoUrl
    decreases |urls|
  {
    if j < |urls| - 1 {
      var init := urls[..|urls| - 1];
      assert forall k :: j < k < |init| ==> init[k] == urls[k];
      PhotoMapLastWins(init, j);
    }
  }

  /** Merging gives one entry per profile row, with the row's id and age and the name fallback. */
  lemma MergeRows(profiles: seq<ProfileRow>, photoMap: map<string, Option<string>>)
    ensures |Merge(profiles, photoMap)| == |profiles|
    ensures forall i :: 0 <= i < |profiles| ==>
      var m := Merge(profiles, photoMap)[i];
      && m.id == profiles[i].id && m.age == profiles[i].age
      && (m.name == UnknownName <==> !Truthy(profiles[i].fullName) || profiles[i].fullName.value == UnknownName)
      && (Truthy(profiles[i].fullName) ==> m.name == profiles[i].fullName.value)
  {
  }

  /**
   * A profile's photo is the URL of the last photo row for that user when it
   * is not empty, and the placeholder when that URL is empty or null or no
   * row names the user.
   */
  lemma MergedPhoto(profiles: seq<ProfileRow>, urls: seq<UrlRow>, i: nat)
    requires i < |profiles|
    ensures var photo := Merge(profiles, PhotoMapOf(urls))[i].photo;
      var id := profiles[i].id;
      && ((forall j :: 0 <= j < |urls| ==> urls[j].userId != id) ==> photo == PlaceholderPhoto)
      && (forall j :: 0 <= j < |urls| && urls[j].userId == id && (forall k :: j < k < |urls| ==> urls[k].userId != id) ==>
            photo == if Truthy(urls[j].photoUrl) then urls[j].photoUrl.value else PlaceholderPhoto)
  {
    var id := profiles[i].id;
    PhotoMapKeys(urls, id);
    forall j | 0 <= j < |urls| && urls[j].userId == id && (forall k :: j < k < |urls| ==> urls[k].userId != id)
      ensures Merge(profiles, PhotoMapOf(urls))[i].photo
              == if Truthy(urls[j].photoUrl) then urls[j].photoUrl.value else PlaceholderPhoto
    {
      PhotoMapLastWins(urls, j);
    }
  }

  /** A photo row whose user has no profile row changes nothing. */
  lemma UnmatchedPhotoIgnored(profiles: seq<ProfileRow>, urls: seq<UrlRow>, extra: UrlRow)
    requires forall i :: 0 <= i < |profiles| ==> profiles[i].id != extra.userId
    ensures Merge(profiles, PhotoMapOf(urls + [extra])) == Merge(profiles, PhotoMapOf(urls))
  {
    assert (urls + [extra])[..|urls|] == urls;
  }
}
