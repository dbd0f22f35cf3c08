/**
 * The API views: who may call which action on which resource, which rows each caller
 * sees, the search and feed queries, and what create, update and destroy requests do
 * to the store. A request is checked in the framework's order: the view's permission
 * classes, then the row lookup in the caller's queryset, then the object permissions,
 * then body validation, then the save.
 */
module Views {
  import opened Common
  import opened Text
  import opened Ordering
  import opened Tables
  import opened Models
  import opened Serializers
  import opened Database

  datatype HttpMethod = GET | HEAD | OPTIONS | POST | PUT | PATCH | DELETE

  /** The read-only methods every "or read only" permission lets through. */
  predicate Safe(m: HttpMethod) { m == GET || m == HEAD || m == OPTIONS }

  datatype Action = List | Retrieve | Create | Update | PartialUpdate | Destroy | Search | UserFeed

  function MethodOf(a: Action): HttpMethod {
    match a
    case List => GET
    case Retrieve => GET
    case Search => GET
    case UserFeed => GET
    case Create => POST
    case Update => PUT
    case PartialUpdate => PATCH
    case Destroy => DELETE
  }

  /** The actions that change a row found by its key. */
  predicate IsWrite(a: Action) { a == Update || a == PartialUpdate || a == Destroy }

  datatype ViewSet = SkillView | ProfileView | CardView | EndorsementView | PostView

  /** The session's user id, or None for an anonymous request. */
  type Caller = Option<UserId>

  /** A session whose user still exists; any other request is anonymous. */
  predicate Authenticated(db: Db, caller: Caller) {
    caller.Some? && caller.value in db.users
  }

  // ---------------------------------------------------------------- permissions

  datatype Perm = IsAuthenticated | IsAuthenticatedOrReadOnly | IsOwnerOrReadOnly

  /** Each view's permission classes; the card view picks its own per action. */
  function PermissionClasses(v: ViewSet, a: Action): seq<Perm> {
    match v
    case SkillView => [IsAuthenticatedOrReadOnly]
    case ProfileView => [IsAuthenticatedOrReadOnly, IsOwnerOrReadOnly]
    case CardView => if IsWrite(a) then [IsAuthenticated, IsOwnerOrReadOnly] else [IsAuthenticated]
    case EndorsementView => [IsAuthenticated]
    case PostView => [IsAuthenticatedOrReadOnly, IsOwnerOrReadOnly]
  }

  /** The view-level check; the owner check lets every request through at this stage. */
  predicate HasPermission(p: Perm, db: Db, caller: Caller, m: HttpMethod) {
    match p
    case IsAuthenticated => Authenticated(db, caller)
    case IsAuthenticatedOrReadOnly => Safe(m) || Authenticated(db, caller)
    case IsOwnerOrReadOnly => true
  }

  /** A row handed to the object-level check. */
  datatype Obj =
    | SkillObj(skill: Skill)
    | ProfileObj(profile: SkillProfile)
    | CardObj(card: UserSkill)
    | EndorsementObj(endorsement: Endorsement)
    | PostObj(post: Post)

  /** Of the five models only the profile has a user attribute. */
  predicate HasUser(o: Obj) { o.ProfileObj? }

  /** Of the five models only the post has an author attribute. */
  predicate HasAuthor(o: Obj) { o.PostObj? }

  /**
   * The owner check: reads pass; a write passes when the row's user, or failing that its
   * author, is the caller; a row with neither attribute never passes.
   */
  predicate OwnerOrReadOnly(o: Obj, caller: Caller, m: HttpMethod) {
    if Safe(m) then true
    else if HasUser(o) then caller == Some(o.profile.user)
    else if HasAuthor(o) then caller == Some(o.post.author)
    else false
  }

  lemma OwnerCheckDecides(o: Obj, caller: Caller, m: HttpMethod)
    ensures Safe(m) ==> OwnerOrReadOnly(o, caller, m)
    ensures !Safe(m) && o.ProfileObj? ==> (OwnerOrReadOnly(o, caller, m) <==> caller == Some(o.profile.user))
    ensures !Safe(m) && o.PostObj? ==> (OwnerOrReadOnly(o, caller, m) <==> caller == Some(o.post.author))
    ensures !Safe(m) && (o.SkillObj? || o.CardObj? || o.EndorsementObj?) ==> !OwnerOrReadOnly(o, caller, m)
  {
  }

  predicate HasObjectPermission(p: Perm, o: Obj, caller: Caller, m: HttpMethod) {
    p == IsOwnerOrReadOnly ==> OwnerOrReadOnly(o, caller, m)
  }

  predicate PermissionsGranted(db: Db, caller: Caller, v: ViewSet, a: Action) {
    forall p :: p in PermissionClasses(v, a) ==> HasPermission(p, db, caller, MethodOf(a))
  }

  predicate ObjectPermissionsGranted(o: Obj, caller: Caller, v: ViewSet, a: Action) {
    forall p :: p in PermissionClasses(v, a) ==> HasObjectPermission(p, o, caller, MethodOf(a))
  }

  /** What the permission classes of each view amount to, view by view. */
  predicate ViewPermits(db: Db, caller: Caller, v: ViewSet, a: Action) {
    match v
    case CardView => Authenticated(db, caller)
    case EndorsementView => Authenticated(db, caller)
    case _ => Safe(MethodOf(a)) || Authenticated(db, caller)
  }

  /** The views that apply the owner check, and the actions they apply it to. */
  predicate OwnerChecked(v: ViewSet, a: Action) {
    v == ProfileView || v == PostView || (v == CardView && IsWrite(a))
  }

  lemma PermissionClassesDecide(db: Db, caller: Caller, v: ViewSet, a: Action, o: Obj)
    ensures PermissionsGranted(db, caller, v, a) <==> ViewPermits(db, caller, v, a)
    ensures ObjectPermissionsGranted(o, caller, v, a) <==>
              (OwnerChecked(v, a) ==> OwnerOrReadOnly(o, caller, MethodOf(a)))
  {
    ViewPermissionsDecide(db, caller, v, a);
    ObjectPermissionsDecide(o, caller, v, a);
  }

  lemma ViewPermissionsDecide(db: Db, caller: Caller, v: ViewSet, a: Action)
    ensures PermissionsGranted(db, caller, v, a) <==> ViewPermits(db, caller, v, a)
  {
    var ps := PermissionClasses(v, a);
    if |ps| == 2 {
      assert ps == [ps[0], IsOwnerOrReadOnly];
    } else {
      assert ps == [ps[0]];
    }
    assert PermissionsGranted(db, caller, v, a) <==> HasPermission(ps[0], db, caller, MethodOf(a));
  }

  lemma ObjectPermissionsDecide(o: Obj, caller: Caller, v: ViewSet, a: Action)
    ensures ObjectPermissionsGranted(o, caller, v, a) <==>
              (OwnerChecked(v, a) ==> OwnerOrReadOnly(o, caller, MethodOf(a)))
  {
    var ps := PermissionClasses(v, a);
    if OwnerChecked(v, a) {
      assert ps == [ps[0], IsOwnerOrReadOnly] && ps[0] != IsOwnerOrReadOnly;
      assert ObjectPermissionsGranted(o, caller, v, a) <==>
             HasObjectPermission(IsOwnerOrReadOnly, o, caller, MethodOf(a));
    } else {
      assert ps == [ps[0]] && ps[0] != IsOwnerOrReadOnly;
      assert HasObjectPermission(ps[0], o, caller, MethodOf(a));
    }
  }

  /** A refused request: an anonymous caller is told to authenticate, anyone else is denied. */
  function Refusal(db: Db, caller: Caller): (e: Error)
    ensures e == NotAuthenticated <==> !Authenticated(db, caller)
    ensures e == PermissionDenied <==> Authenticated(db, caller)
  {
    if Authenticated(db, caller) then PermissionDenied else NotAuthenticated
  }

  /** The routes each view offers: skills are read-only, only posts have a feed. */
  predicate Offers(v: ViewSet, a: Action) {
    match v
    case SkillView => a == List || a == Retrieve || a == Search
    case PostView => a != Search
    case _ => a != Search && a != UserFeed
  }

  // ---------------------------------------------------------------- querysets

  /** The card view's queryset: the caller's own cards, or none for an anonymous caller. */
  function VisibleCards(db: Db, caller: Caller): (r: map<CardId, UserSkill>)
    ensures !Authenticated(db, caller) ==> r == map[]
    ensures SubMap(r, db.cards)
    ensures forall k :: k in db.cards && Authenticated(db, caller) && db.cards[k].profile == caller.value ==> k in r
    ensures forall k :: k in r ==> r[k].profile == caller.value
  {
    if Authenticated(db, caller) then map k | k in db.cards && db.cards[k].profile == caller.value :: db.cards[k]
    else map[]
  }

  /** The user holds the card an endorsement is on. */
  predicate Receives(db: Db, u: UserId, e: Endorsement) {
    e.skillCard in db.cards && db.cards[e.skillCard].profile == u
  }

  /** The user gave the endorsement or holds the card it is on. */
  predicate Party(db: Db, u: UserId, e: Endorsement) {
    e.endorser == u || Receives(db, u, e)
  }

  /** The endorsement view's queryset: given and received together, or none when anonymous. */
  function VisibleEndorsements(db: Db, caller: Caller): (r: map<EndorsementId, Endorsement>)
    ensures !Authenticated(db, caller) ==> r == map[]
    ensures SubMap(r, db.endorsements)
    ensures forall k :: k in db.endorsements && Authenticated(db, caller) && Party(db, caller.value, db.endorsements[k]) ==> k in r
    ensures forall k :: k in r ==> Party(db, caller.value, r[k])
  {
    if Authenticated(db, caller) then
      map k | k in db.endorsements && Party(db, caller.value, db.endorsements[k]) :: db.endorsements[k]
    else map[]
  }

  /** The row a detail route names, looked up in the view's queryset for this caller. */
  function Lookup(db: Db, caller: Caller, v: ViewSet, id: nat): (r: Option<Obj>)
    ensures v == CardView ==> (r.Some? <==> id in VisibleCards(db, caller))
    ensures v == EndorsementView ==> (r.Some? <==> id in VisibleEndorsements(db, caller))
  {
    match v
    case SkillView => if id in db.skills then Some(SkillObj(db.skills[id])) else None
    case ProfileView => if id in db.profiles then Some(ProfileObj(db.profiles[id])) else None
    case CardView =>
      var vis := VisibleCards(db, caller);
      if id in vis then Some(CardObj(vis[id])) else None
    case EndorsementView =>
      var vis := VisibleEndorsements(db, caller);
      if id in vis then Some(EndorsementObj(vis[id])) else None
    case PostView => if id in db.posts then Some(PostObj(db.posts[id])) else None
  }

  /**
   * The checks before a detail action runs: the view's permissions, the route, the row
   * lookup (absent or outside the queryset is NotFound), then the object permissions.
   */
  function Access(db: Db, caller: Caller, v: ViewSet, a: Action, id: nat): (r: Result<Obj>)
    ensures r.Ok? ==> PermissionsGranted(db, caller, v, a) && Offers(v, a) &&
                      Lookup(db, caller, v, id) == Some(r.value) &&
                      ObjectPermissionsGranted(r.value, caller, v, a)
  {
    if !PermissionsGranted(db, caller, v, a) then Err(Refusal(db, caller))
    else if !Offers(v, a) then Err(MethodNotAllowed)
    else
      match Lookup(db, caller, v, id)
      case None => Err(NotFound)
      case Some(o) => if ObjectPermissionsGranted(o, caller, v, a) then Ok(o) else Err(Refusal(db, caller))
  }

  /** The checks before a collection action (list, create, search, feed) runs. */
  function CollectionAccess(db: Db, caller: Caller, v: ViewSet, a: Action): (r: Result<()>)
    ensures r.Ok? <==> PermissionsGranted(db, caller, v, a) && Offers(v, a)
  {
    if !PermissionsGranted(db, caller, v, a) then Err(Refusal(db, caller))
    else if !Offers(v, a) then Err(MethodNotAllowed)
    else Ok(())
  }

  // ---------------------------------------------------------------- access rules

  /** Access with the permission classes spelled out view by view. */
  lemma AccessDecided(db: Db, caller: Caller, v: ViewSet, a: Action, id: nat)
    ensures Access(db, caller, v, a, id) ==
      if !ViewPermits(db, caller, v, a) then Err(Refusal(db, caller))
      else if !Offers(v, a) then Err(MethodNotAllowed)
      else if Lookup(db, caller, v, id).None? then Err(NotFound)
      else if OwnerChecked(v, a) && !OwnerOrReadOnly(Lookup(db, caller, v, id).value, caller, MethodOf(a)) then
        Err(Refusal(db, caller))
      else Ok(Lookup(db, caller, v, id).value)
  {
    var l := Lookup(db, caller, v, id);
    PermissionClassesDecide(db, caller, v, a, if l.Some? then l.value else ProfileObj(BlankProfile(0)));
  }

  /** Collection access with the permission classes spelled out view by view. */
  lemma CollectionAccessDecided(db: Db, caller: Caller, v: ViewSet, a: Action)
    ensures CollectionAccess(db, caller, v, a) ==
      if !ViewPermits(db, caller, v, a) then Err(Refusal(db, caller))
      else if !Offers(v, a) then Err(MethodNotAllowed)
      else Ok(())
  {
    PermissionClassesDecide(db, caller, v, a, ProfileObj(BlankProfile(0)));
  }

  /** Skills, profiles and posts can be read by anyone, anonymous or not, when the row exists. */
  lemma ReadsAreOpen(db: Db, caller: Caller, id: nat)
    ensures Access(db, caller, SkillView, Retrieve, id).Ok? <==> id in db.skills
    ensures Access(db, caller, ProfileView, Retrieve, id).Ok? <==> id in db.profiles
    ensures Access(db, caller, PostView, Retrieve, id).Ok? <==> id in db.posts
  {
    AccessDecided(db, caller, SkillView, Retrieve, id);
    AccessDecided(db, caller, ProfileView, Retrieve, id);
    AccessDecided(db, caller, PostView, Retrieve, id);
  }

  /** Only a post's author may change or delete it. */
  lemma PostWriteNeedsAuthor(db: Db, caller: Caller, a: Action, id: nat)
    requires IsWrite(a)
    ensures var r := Access(db, caller, PostView, a, id);
      && (r.Ok? <==> Authenticated(db, caller) && id in db.posts && db.posts[id].author == caller.value)
      && (!Authenticated(db, caller) ==> r == Err(NotAuthenticated))
      && (Authenticated(db, caller) && id !in db.posts ==> r == Err(NotFound))
      && (Authenticated(db, caller) && id in db.posts && db.posts[id].author != caller.value ==>
            r == Err(PermissionDenied))
  {
    AccessDecided(db, caller, PostView, a, id);
  }

  /** Only the profile's own user may change or delete it. */
  lemma ProfileWriteNeedsOwner(db: Db, caller: Caller, a: Action, u: UserId)
    requires IsWrite(a) && ProfilesOk(db.profiles, db.users)
    ensures var r := Access(db, caller, ProfileView, a, u);
      && (r.Ok? <==> Authenticated(db, caller) && u in db.profiles && caller.value == u)
      && (!Authenticated(db, caller) ==> r == Err(NotAuthenticated))
      && (Authenticated(db, caller) && u !in db.profiles ==> r == Err(NotFound))
      && (Authenticated(db, caller) && u in db.profiles && caller.value != u ==> r == Err(PermissionDenied))
  {
    AccessDecided(db, caller, ProfileView, a, u);
  }

  /**
   * No one can change or delete a card through the API: another user's card is not
   * found, and one's own card fails the owner check, having neither user nor author.
   */
  lemma CardWritesAlwaysDenied(db: Db, caller: Caller, a: Action, id: nat)
    requires IsWrite(a)
    ensures var r := Access(db, caller, CardView, a, id);
      && r.Err?
      && (!Authenticated(db, caller) ==> r.error == NotAuthenticated)
      && (Authenticated(db, caller) && !(id in db.cards && db.cards[id].profile == caller.value) ==>
            r.error == NotFound)
      && (Authenticated(db, caller) && id in db.cards && db.cards[id].profile == caller.value ==>
            r.error == PermissionDenied)
  {
    AccessDecided(db, caller, CardView, a, id);
  }

  /** A card can be read by its owner only. */
  lemma CardReadNeedsOwner(db: Db, caller: Caller, id: nat)
    ensures Access(db, caller, CardView, Retrieve, id).Ok? <==>
            Authenticated(db, caller) && id in db.cards && db.cards[id].profile == caller.value
  {
    AccessDecided(db, caller, CardView, Retrieve, id);
  }

  /**
   * Any action on an endorsement, reads and writes alike, is open to its endorser and to
   * the holder of the endorsed card, and to no one else.
   */
  lemma EndorsementAccessRule(db: Db, caller: Caller, a: Action, id: nat)
    requires a == Retrieve || IsWrite(a)
    ensures Access(db, caller, EndorsementView, a, id).Ok? <==>
      && Authenticated(db, caller) && id in db.endorsements
      && Party(db, caller.value, db.endorsements[id])
  {
    AccessDecided(db, caller, EndorsementView, a, id);
  }

  /** Skills cannot be written through the API; an anonymous caller is refused first. */
  lemma SkillWritesNotAllowed(db: Db, caller: Caller, a: Action, id: nat)
    requires IsWrite(a) || a == Create
    ensures Access(db, caller, SkillView, a, id) ==
            Err(if Authenticated(db, caller) then MethodNotAllowed else NotAuthenticated)
    ensures CollectionAccess(db, caller, SkillView, a) ==
            Err(if Authenticated(db, caller) then MethodNotAllowed else NotAuthenticated)
  {
    AccessDecided(db, caller, SkillView, a, id);
    CollectionAccessDecided(db, caller, SkillView, a);
  }

  /** Creating is open to signed-in users on every view but the skills', which has no such route. */
  lemma CreateNeedsLogin(db: Db, caller: Caller, v: ViewSet)
    ensures !Authenticated(db, caller) ==> CollectionAccess(db, caller, v, Create) == Err(NotAuthenticated)
    ensures Authenticated(db, caller) ==>
              CollectionAccess(db, caller, v, Create) == if v == SkillView then Err(MethodNotAllowed) else Ok(())
  {
    CollectionAccessDecided(db, caller, v, Create);
  }

  // ---------------------------------------------------------------- listings

  /** The card list: the caller's cards by skill name. */
  function ListCards(db: Db, caller: Caller): Result<seq<UserSkill>> {
    match CollectionAccess(db, caller, CardView, List)
    case Err(e) => Err(e)
    case Ok(_) => Ok(Listing(VisibleCards(db, caller), db.nextId, CardBySkillName(db.skills)))
  }

  lemma ListCardsIsOwnCards(db: Db, caller: Caller)
    requires KeysBelow(db.cards, db.nextId)
    ensures ListCards(db, caller).Err? <==> !Authenticated(db, caller)
    ensures ListCards(db, caller).Ok? ==>
      && (forall c :: c in ListCards(db, caller).value <==> c in db.cards.Values && c.profile == caller.value)
      && SortedBy(ListCards(db, caller).value, CardBySkillName(db.skills))
  {
    CollectionAccessDecided(db, caller, CardView, List);
    if Authenticated(db, caller) {
      var vis := VisibleCards(db, caller);
      CardOrderIsTotal(db.skills);
      ListingIsOrderedTable(vis, db.nextId, CardBySkillName(db.skills));
      forall c | c in db.cards.Values && c.profile == caller.value ensures c in vis.Values {
        var k :| k in db.cards && db.cards[k] == c;
      }
    }
  }

  /** The endorsement list: given and received, newest first. */
  function ListEndorsements(db: Db, caller: Caller): Result<seq<Endorsement>> {
    match CollectionAccess(db, caller, EndorsementView, List)
    case Err(e) => Err(e)
    case Ok(_) => Ok(Listing(VisibleEndorsements(db, caller), db.nextId, NewestEndorsementFirst))
  }

  lemma ListEndorsementsIsGivenAndReceived(db: Db, caller: Caller)
    requires KeysBelow(db.endorsements, db.nextId)
    ensures ListEndorsements(db, caller).Err? <==> !Authenticated(db, caller)
    ensures ListEndorsements(db, caller).Ok? ==>
      && (forall e :: e in ListEndorsements(db, caller).value <==> e in db.endorsements.Values && Party(db, caller.value, e))
      && SortedBy(ListEndorsements(db, caller).value, NewestEndorsementFirst)
  {
    CollectionAccessDecided(db, caller, EndorsementView, List);
    if Authenticated(db, caller) {
      var vis := VisibleEndorsements(db, caller);
      NewestFirstIsTotal();
      ListingIsOrderedTable(vis, db.nextId, NewestEndorsementFirst);
      forall e | e in db.endorsements.Values && Party(db, caller.value, e) ensures e in vis.Values {
        var k :| k in db.endorsements && db.endorsements[k] == e;
      }
    }
  }

  // ---------------------------------------------------------------- search and feed

  const SearchLimit: nat := 10
  const FeedLimit: nat := 50

  /** The case-insensitive substring filter on skill names. */
  function NameContains(q: string): Skill -> bool {
    (s: Skill) => ContainsIgnoringCase(s.name, q)
  }

  /** A skill the query selects: every skill for an empty query. */
  predicate Matches(q: string, s: Skill) {
    q == "" || ContainsIgnoringCase(s.name, q)
  }

  /** The skills by name, filtered by q when q is not empty. */
  function SearchPool(db: Db, q: string): seq<Skill> {
    if q != "" then Filter(SkillListing(db), NameContains(q)) else SkillListing(db)
  }

  /** The skill search: the first ten of the pool. */
  function SearchSkills(db: Db, q: string): seq<Skill> {
    Take(SearchPool(db, q), SearchLimit)
  }

  lemma SearchPoolOrdered(db: Db, q: string)
    requires KeysBelow(db.skills, db.nextId)
    ensures forall s :: s in SearchPool(db, q) <==> s in db.skills.Values && Matches(q, s)
    ensures SortedBy(SearchPool(db, q), SkillByName)
  {
    SkillOrderIsTotal();
    ListingIsOrderedTable(db.skills, db.nextId, SkillByName);
    if q != "" {
      FilterSorted(SkillListing(db), NameContains(q), SkillByName);
    }
  }

  /**
   * The search returns at most ten matching skills in name order, and leaves a matching
   * skill out only when ten skills that come no later by name fill the page.
   */
  lemma SearchSpec(db: Db, q: string)
    requires KeysBelow(db.skills, db.nextId)
    ensures |SearchSkills(db, q)| <= SearchLimit
    ensures forall s :: s in SearchSkills(db, q) ==> s in db.skills.Values && Matches(q, s)
    ensures SortedBy(SearchSkills(db, q), SkillByName)
    ensures forall s :: s in db.skills.Values && Matches(q, s) && s !in SearchSkills(db, q) ==>
              |SearchSkills(db, q)| == SearchLimit && forall x :: x in SearchSkills(db, q) ==> SkillByName(x, s)
  {
    var pool := SearchPool(db, q);
    SearchPoolOrdered(db, q);
    var r := SearchSkills(db, q);
    forall s | s in r ensures s in pool {
      var i :| 0 <= i < |r| && r[i] == s;
      assert pool[i] == s;
    }
    forall s | s in db.skills.Values && Matches(q, s) && s !in r
      ensures |r| == SearchLimit && forall x :: x in r ==> SkillByName(x, s)
    {
      TakeKeepsLeast(pool, SearchLimit, SkillByName, s);
    }
  }

  /** With no query the search is the first ten skills by name, or all of them when fewer. */
  lemma SearchWithoutQuery(db: Db)
    requires KeysBelow(db.skills, db.nextId)
    ensures |SearchSkills(db, "")| == Min(SearchLimit, |db.skills|)
    ensures SearchSkills(db, "") == SkillListing(db)[..|SearchSkills(db, "")|]
  {
    SkillOrderIsTotal();
    ListingIsOrderedTable(db.skills, db.nextId, SkillByName);
  }

  /** The search response: each skill rendered as id and name. */
  function SearchResponse(db: Db, q: string): (r: seq<Json>)
    ensures |r| == |SearchSkills(db, q)|
    ensures forall i :: 0 <= i < |r| ==> r[i] == SkillJson(SearchSkills(db, q)[i])
  {
    var skills := SearchSkills(db, q);
    seq(|skills|, i requires 0 <= i < |skills| => SkillJson(skills[i]))
  }

  /** The feed: the fifty newest posts of the whole store. */
  function Feed(db: Db, caller: Caller): seq<Post> {
    Take(PostListing(db), FeedLimit)
  }

  /**
   * The feed holds min(50, number of posts) posts, newest first, and no post left out is
   * newer than one shown. Every caller sees the same feed.
   */
  lemma FeedSpec(db: Db, caller: Caller, other: Caller)
    requires KeysBelow(db.posts, db.nextId)
    ensures |Feed(db, caller)| == Min(FeedLimit, |db.posts|)
    ensures forall p :: p in Feed(db, caller) ==> p in db.posts.Values
    ensures SortedBy(Feed(db, caller), NewestPostFirst)
    ensures forall p :: p in db.posts.Values && p !in Feed(db, caller) ==>
              forall x :: x in Feed(db, caller) ==> x.createdAt >= p.createdAt
    ensures Feed(db, caller) == Feed(db, other)
  {
    var all := PostListing(db);
    NewestFirstIsTotal();
    ListingIsOrderedTable(db.posts, db.nextId, NewestPostFirst);
    var r := Feed(db, caller);
    forall p | p in r ensures p in all {
      var i :| 0 <= i < |r| && r[i] == p;
      assert all[i] == p;
    }
    forall p | p in db.posts.Values && p !in r ensures forall x :: x in r ==> x.createdAt >= p.createdAt {
      TakeKeepsLeast(all, FeedLimit, NewestPostFirst, p);
    }
  }

  // ---------------------------------------------------------------- profile retrieval

  /** A profile page by user id: the rendered profile, or NotFound for any failure. */
  function RetrieveProfile(db: Db, caller: Caller, u: UserId): (r: Result<Json>)
    requires CardSkillsExist(db) && ProfilesOk(db.profiles, db.users)
    ensures r.Err? ==> r.error == NotFound
    ensures r.Ok? <==> u in db.profiles
    ensures r.Ok? ==> r.value == ProfileJson(db, db.profiles[u])
    ensures r.Ok? ==> r.value.JObj? && "user" in r.value.fields && r.value.fields["user"] == UserJson(db.users[u])
  {
    ReadsAreOpen(db, caller, u);
    assert "user" in ProfileFields.Readable();
    match Access(db, caller, ProfileView, Retrieve, u)
    case Err(_) => Err(NotFound)
    case Ok(o) => Ok(ProfileJson(db, db.profiles[u]))
  }

  // ---------------------------------------------------------------- creates

  /** A post is saved with the caller as author, whatever the body says about the author. */
  method CreatePost(store: Store, caller: Caller, data: Body) returns (r: Result<PostId>)
    requires store.Valid()
    modifies store
    ensures store.Valid()
    ensures r.Err? ==> store.Snapshot() == old(store.Snapshot())
    ensures !Authenticated(old(store.Snapshot()), caller) ==> r == Err(NotAuthenticated)
    ensures r.Ok? <==> Authenticated(old(store.Snapshot()), caller) && ValidatePost(old(store.Snapshot()), data, false).Ok?
    ensures r.Ok? ==>
      var v := ValidatePost(old(store.Snapshot()), data, false);
      && v.Ok? && v.value.content.Some?
      && store.Snapshot() == WithPost(old(store.Snapshot()), caller.value, v.value.content.value, v.value.relatedSkill)
      && r.value in store.posts && store.posts[r.value].author == caller.value
  {
    CreateNeedsLogin(store.Snapshot(), caller, PostView);
    var access := CollectionAccess(store.Snapshot(), caller, PostView, Create);
    if access.Err? {
      return Err(access.error);
    }
    var valid := ValidatePost(store.Snapshot(), data, false);
    if valid.Err? {
      return Err(valid.error);
    }
    r := store.CreatePost(caller.value, valid.value.content.value, valid.value.relatedSkill);
  }

  /** An endorsement is saved with the caller as endorser, on the card the body names. */
  method CreateEndorsement(store: Store, caller: Caller, data: Body) returns (r: Result<EndorsementId>)
    requires store.Valid()
    modifies store
    ensures store.Valid()
    ensures r.Err? ==> store.Snapshot() == old(store.Snapshot())
    ensures !Authenticated(old(store.Snapshot()), caller) ==> r == Err(NotAuthenticated)
    ensures var v := ValidateEndorsement(old(store.Snapshot()), data, false);
      r.Ok? <==> Authenticated(old(store.Snapshot()), caller) && v.Ok? && v.value.card.Some? &&
                 !EndorsementPairTaken(old(store.endorsements), caller.value, v.value.card.value)
    ensures r.Ok? ==>
      var v := ValidateEndorsement(old(store.Snapshot()), data, false);
      && v.Ok? && v.value.card.Some?
      && store.Snapshot() == WithEndorsement(old(store.Snapshot()), caller.value, v.value.card.value,
                                             Given(v.value.comment, None), Given(v.value.rating, None))
      && r.value in store.endorsements && store.endorsements[r.value].endorser == caller.value
  {
    CreateNeedsLogin(store.Snapshot(), caller, EndorsementView);
    var access := CollectionAccess(store.Snapshot(), caller, EndorsementView, Create);
    if access.Err? {
      return Err(access.error);
    }
    var valid := ValidateEndorsement(store.Snapshot(), data, false);
    if valid.Err? {
      return Err(valid.error);
    }
    var input := valid.value;
    r := store.CreateEndorsement(caller.value, input.card.value, Given(input.comment, None), Given(input.rating, None));
  }

  /** The store after get_or_create of the user's profile. */
  function EnsureProfile(db: Db, u: UserId): (r: Db)
    ensures u in r.profiles
    ensures r.cards == db.cards && r.users == db.users && r.nextId == db.nextId
    ensures u in db.profiles ==> r == db
    ensures u !in db.profiles ==> r == db.(profiles := db.profiles[u := BlankProfile(u)])
  {
    if u in db.profiles then db else WithProfile(db, u)
  }

  /**
   * A card as the card view creates it: the body is validated, the caller's profile is
   * fetched or created, and the card is saved on it. The body cannot name a skill, so
   * the save never succeeds; a profile it created stays.
   */
  method CreateCardAsWritten(store: Store, caller: Caller, data: Body) returns (r: Result<CardId>)
    requires store.Valid()
    modifies store
    ensures store.Valid()
    ensures r.Err?
    ensures !Authenticated(old(store.Snapshot()), caller) ==>
              r == Err(NotAuthenticated) && store.Snapshot() == old(store.Snapshot())
    ensures Authenticated(old(store.Snapshot()), caller) && ValidateCard(data).Err? ==>
              r == Err(ValidateCard(data).error) && store.Snapshot() == old(store.Snapshot())
    ensures Authenticated(old(store.Snapshot()), caller) && ValidateCard(data).Ok? ==>
              && r == Err(Conflict("skill_id not null"))
              && store.Snapshot() == EnsureProfile(old(store.Snapshot()), caller.value)
  {
    CreateNeedsLogin(store.Snapshot(), caller, CardView);
    var access := CollectionAccess(store.Snapshot(), caller, CardView, Create);
    if access.Err? {
      return Err(access.error);
    }
    var valid := ValidateCard(data);
    if valid.Err? {
      return Err(valid.error);
    }
    ghost var db := store.Snapshot();
    var created := store.GetOrCreateProfile(caller.value);
    assert store.Snapshot() == EnsureProfile(db, caller.value);
    var (rating, public) := CardValues(valid.value);
    r := store.CreateCard(caller.value, None, rating, public);
  }

  /**
   * A card created with its skill chosen through the write-only skill_id: it lands on
   * the caller's profile, which is fetched or created first.
   */
  method CreateCard(store: Store, caller: Caller, data: Body) returns (r: Result<CardId>)
    requires store.Valid()
    modifies store
    ensures store.Valid()
    ensures !Authenticated(old(store.Snapshot()), caller) ==>
              r == Err(NotAuthenticated) && store.Snapshot() == old(store.Snapshot())
    ensures var v := ValidateNewCard(old(store.Snapshot()), data);
      r.Ok? <==> Authenticated(old(store.Snapshot()), caller) && v.Ok? &&
                 !CardPairTaken(old(store.cards), caller.value, v.value.0)
    ensures r.Ok? ==>
      var v := ValidateNewCard(old(store.Snapshot()), data);
      && v.Ok?
      && store.Snapshot() == WithCard(EnsureProfile(old(store.Snapshot()), caller.value), caller.value, v.value.0,
                                      CardValues(v.value.1).0, CardValues(v.value.1).1)
      && r.value in store.cards && store.cards[r.value].profile == caller.value
    ensures r.Err? && Authenticated(old(store.Snapshot()), caller) && ValidateNewCard(old(store.Snapshot()), data).Ok? ==>
              r.error.Conflict? && store.Snapshot() == EnsureProfile(old(store.Snapshot()), caller.value)
    ensures r.Err? && !(Authenticated(old(store.Snapshot()), caller) && ValidateNewCard(old(store.Snapshot()), data).Ok?) ==>
              store.Snapshot() == old(store.Snapshot())
  {
    CreateNeedsLogin(store.Snapshot(), caller, CardView);
    var access := CollectionAccess(store.Snapshot(), caller, CardView, Create);
    if access.Err? {
      return Err(access.error);
    }
    var valid := ValidateNewCard(store.Snapshot(), data);
    if valid.Err? {
      return Err(valid.error);
    }
    var (skill, input) := valid.value;
    var created := store.GetOrCreateProfile(caller.value);
    var (rating, public) := CardValues(input);
    r := store.CreateCard(caller.value, Some(skill), rating, public);
  }

  /** Creating a profile through the API saves a row without its user key, which the database refuses. */
  function CreateProfile(db: Db, caller: Caller, data: Body): (r: Result<UserId>)
    ensures r.Err?
    ensures !Authenticated(db, caller) ==> r == Err(NotAuthenticated)
    ensures Authenticated(db, caller) && ValidateProfile(data).Ok? ==> r == Err(Conflict("user_id not null"))
  {
    CreateNeedsLogin(db, caller, ProfileView);
    match CollectionAccess(db, caller, ProfileView, Create)
    case Err(e) => Err(e)
    case Ok(_) =>
      match ValidateProfile(data)
      case Err(e) => Err(e)
      case Ok(_) => Err(Conflict("user_id not null"))
  }

  // ---------------------------------------------------------------- updates

  function UpdateAction(partial: bool): (a: Action)
    ensures IsWrite(a)
  {
    if partial then PartialUpdate else Update
  }

  /** Only the author can edit a post; a field the body omits keeps its value. */
  method UpdatePost(store: Store, caller: Caller, id: PostId, data: Body, partial: bool) returns (r: Result<PostId>)
    requires store.Valid()
    modifies store
    ensures store.Valid()
    ensures r.Err? ==> store.Snapshot() == old(store.Snapshot())
    ensures r.Ok? <==> Access(old(store.Snapshot()), caller, PostView, UpdateAction(partial), id).Ok? &&
                       ValidatePost(old(store.Snapshot()), data, partial).Ok?
    ensures r.Ok? ==>
      && Authenticated(old(store.Snapshot()), caller)
      && id in old(store.posts) && old(store.posts)[id].author == caller.value
      && var v := ValidatePost(old(store.Snapshot()), data, partial);
      && v.Ok?
      && var p := old(store.posts)[id];
      && store.Snapshot() == WithPostEdited(old(store.Snapshot()), id, Given(v.value.content, p.content),
                                            if v.value.relatedSkill.Some? then v.value.relatedSkill else p.relatedSkill)
  {
    PostWriteNeedsAuthor(store.Snapshot(), caller, UpdateAction(partial), id);
    var access := Access(store.Snapshot(), caller, PostView, UpdateAction(partial), id);
    if access.Err? {
      return Err(access.error);
    }
    var valid := ValidatePost(store.Snapshot(), data, partial);
    if valid.Err? {
      return Err(valid.error);
    }
    var p := store.posts[id];
    var skill := if valid.value.relatedSkill.Some? then valid.value.relatedSkill else p.relatedSkill;
    r := store.UpdatePost(id, Given(valid.value.content, p.content), skill);
  }

  /** Only the profile's user can edit it; a field the body omits keeps its value. */
  method UpdateProfile(store: Store, caller: Caller, u: UserId, data: Body, partial: bool) returns (r: Result<UserId>)
    requires store.Valid()
    modifies store
    ensures store.Valid()
    ensures r.Err? ==> store.Snapshot() == old(store.Snapshot())
    ensures r.Ok? <==> Access(old(store.Snapshot()), caller, ProfileView, UpdateAction(partial), u).Ok? &&
                       ValidateProfile(data).Ok?
    ensures r.Ok? ==>
      && r.value == u && caller == Some(u) && u in old(store.profiles)
      && var v := ValidateProfile(data);
      && v.Ok?
      && var p := old(store.profiles)[u];
      && store.Snapshot() == WithProfileEdited(old(store.Snapshot()), u, Given(v.value.bio, p.bio),
                                               Given(v.value.location, p.location),
                                               Given(v.value.pictureUrl, p.pictureUrl))
  {
    ProfileWriteNeedsOwner(store.Snapshot(), caller, UpdateAction(partial), u);
    var access := Access(store.Snapshot(), caller, ProfileView, UpdateAction(partial), u);
    if access.Err? {
      return Err(access.error);
    }
    var valid := ValidateProfile(data);
    if valid.Err? {
      return Err(valid.error);
    }
    var p := store.profiles[u];
    assert OptionalWithin(p.location, LocationMaxLength) && OptionalWithin(p.pictureUrl, PictureUrlMaxLength);
    store.UpdateProfile(u, Given(valid.value.bio, p.bio), Given(valid.value.location, p.location),
                        Given(valid.value.pictureUrl, p.pictureUrl));
    r := Ok(u);
  }

  /**
   * An endorsement can be edited by either party, its endorser or the card's holder;
   * the endorser itself never changes.
   */
  method UpdateEndorsement(store: Store, caller: Caller, id: EndorsementId, data: Body, partial: bool)
    returns (r: Result<EndorsementId>)
    requires store.Valid()
    modifies store
    ensures store.Valid()
    ensures r.Err? ==> store.Snapshot() == old(store.Snapshot())
    ensures r.Ok? ==>
      && Authenticated(old(store.Snapshot()), caller) && id in old(store.endorsements)
      && Party(old(store.Snapshot()), caller.value, old(store.endorsements)[id])
      && var v := ValidateEndorsement(old(store.Snapshot()), data, partial);
      && v.Ok?
      && var e := old(store.endorsements)[id];
      && store.Snapshot() == WithEndorsementEdited(old(store.Snapshot()), id, Given(v.value.card, e.skillCard),
                                                   Given(v.value.comment, e.comment),
                                                   Given(v.value.rating, e.endorserRating))
      && store.endorsements[id].endorser == e.endorser
    ensures (r.Err? && Access(old(store.Snapshot()), caller, EndorsementView, UpdateAction(partial), id).Ok? &&
             ValidateEndorsement(old(store.Snapshot()), data, partial).Ok?) ==> r.error.Conflict?
    ensures r.Ok? <==>
      && Access(old(store.Snapshot()), caller, EndorsementView, UpdateAction(partial), id).Ok?
      && id in old(store.endorsements)
      && var v := ValidateEndorsement(old(store.Snapshot()), data, partial);
      && v.Ok?
      && var e := old(store.endorsements)[id];
      && !EndorsementPairTakenByOther(old(store.endorsements), id, e.endorser, Given(v.value.card, e.skillCard))
  {
    EndorsementAccessRule(store.Snapshot(), caller, UpdateAction(partial), id);
    var access := Access(store.Snapshot(), caller, EndorsementView, UpdateAction(partial), id);
    if access.Err? {
      return Err(access.error);
    }
    var valid := ValidateEndorsement(store.Snapshot(), data, partial);
    if valid.Err? {
      return Err(valid.error);
    }
    var e := store.endorsements[id];
    var input := valid.value;
    assert OptionalRatingInRange(e.endorserRating);
    r := store.UpdateEndorsement(id, Given(input.card, e.skillCard), Given(input.comment, e.comment),
                                 Given(input.rating, e.endorserRating));
  }

  // ---------------------------------------------------------------- destroys

  /** Only the author can delete a post. */
  method DestroyPost(store: Store, caller: Caller, id: PostId) returns (r: Result<PostId>)
    requires store.Valid()
    modifies store
    ensures store.Valid()
    ensures r.Err? ==> store.Snapshot() == old(store.Snapshot())
    ensures r.Ok? <==> Authenticated(old(store.Snapshot()), caller) && id in old(store.posts) &&
                       old(store.posts)[id].author == caller.value
    ensures r.Ok? ==> store.Snapshot() == AfterDeletePost(old(store.Snapshot()), id)
  {
    PostWriteNeedsAuthor(store.Snapshot(), caller, Destroy, id);
    var access := Access(store.Snapshot(), caller, PostView, Destroy, id);
    if access.Err? {
      return Err(access.error);
    }
    store.DeletePost(id);
    r := Ok(id);
  }

  /** Deleting one's profile takes its cards and the endorsements on them along. */
  method DestroyProfile(store: Store, caller: Caller, u: UserId) returns (r: Result<UserId>)
    requires store.Valid()
    modifies store
    ensures store.Valid()
    ensures r.Err? ==> store.Snapshot() == old(store.Snapshot())
    ensures r.Ok? <==> Authenticated(old(store.Snapshot()), caller) && u in old(store.profiles) && caller.value == u
    ensures r.Ok? ==> store.Snapshot() == AfterDeleteProfile(old(store.Snapshot()), u)
  {
    ProfileWriteNeedsOwner(store.Snapshot(), caller, Destroy, u);
    var access := Access(store.Snapshot(), caller, ProfileView, Destroy, u);
    if access.Err? {
      return Err(access.error);
    }
    store.DeleteProfile(u);
    r := Ok(u);
  }

  /** Either party to an endorsement can delete it. */
  method DestroyEndorsement(store: Store, caller: Caller, id: EndorsementId) returns (r: Result<EndorsementId>)
    requires store.Valid()
    modifies store
    ensures store.Valid()
    ensures r.Err? ==> store.Snapshot() == old(store.Snapshot())
    ensures r.Ok? <==> Authenticated(old(store.Snapshot()), caller) && id in old(store.endorsements) &&
                       Party(old(store.Snapshot()), caller.value, old(store.endorsements)[id])
    ensures r.Ok? ==> store.Snapshot() == AfterDeleteEndorsement(old(store.Snapshot()), id)
  {
    EndorsementAccessRule(store.Snapshot(), caller, Destroy, id);
    var access := Access(store.Snapshot(), caller, EndorsementView, Destroy, id);
    if access.Err? {
      return Err(access.error);
    }
    store.DeleteEndorsement(id);
    r := Ok(id);
  }
}
