# SkillLink backend core, modelled in Dafny

SkillLink is a skill-centred social network. Its Django backend keeps five tables:
- skills;
- skill profiles, one per Django user;
- user skills, the "cards" a profile lists;
- posts;
- endorsements, one user's vouching for another user's card.

Django REST Framework view sets expose these tables with per-view permission classes and
querysets. A second, stand-alone models file (`Backend/main_sys.py`) sketches an alternative
schema. In that schema the profile is a custom user model with a skill level, skills form a
tree, and endorsements go from person to person for a skill with a confidence choice.

The project is organised as follows:

- `common.dfy` (`Common`): `Option`, `Result` and the error kinds a request can end in.
  - NotAuthenticated, NotFound, PermissionDenied and MethodNotAllowed correspond to HTTP 401/403/404/405.
  - `Invalid(field)` is a 400 naming the first rejected field.
  - `Conflict(constraint)` is a database IntegrityError.
- `text.dfy` (`Text`): ASCII case folding and the case-insensitive substring test behind `icontains`.
  It also holds the lexicographic order on names.
- `ordering.dfy` (`Ordering`): a stable insertion sort by a comparator, plus filtering and `[:n]` slicing.
  These come with their specifications: sorted, same elements, and the first n are the least.
- `tables.dfy` (`Tables`): a table is a map from id to row. `Rows` lists a table in id order, and two loop
  methods filter and rewrite tables row by row.
- `models.dfy` (`Models`): the five models of `Backend/core/models.py` and a database snapshot `Db`.
  - `Schema` holds every declared constraint: primary keys, foreign keys, uniques and validators.
  - It defines the `Meta.ordering` of each model and the `__str__` labels.
  - Every insert, edit and delete is a function on `Db`; the deletes follow the CASCADE and
    SET_NULL rules.
  - Each of these functions has a lemma saying it keeps `Schema`.
- `database.dfy` (`Database`): `class Store`, the mutable database. Every method is proved against
  the matching `Models` function.
  - Each method states its whole new state, or leaves the state untouched on error.
  - Each method keeps `Valid()`, which is `Schema` of the snapshot.
- `serializers.dfy` (`Serializers`): JSON values and the fields each serializer declares.
  - Rendering of rows and validation of request bodies.
  - Proofs that read-only fields in a body are ignored, and that a row's own body validates back to
    its values.
- `views.dfy` (`Views`): the request pipeline of each view set.
  - The permission classes, with `IsOwnerOrReadOnly` among them.
  - The route check, the queryset scope and the object check.
  - The custom `search` and `user_feed` actions, the profile `retrieve`, and the create, update and
    destroy handlers, which run over a `Store`.
- `custom_user.dfy` (`CustomUser`): `Backend/main_sys.py`, with its choices, field bounds and display
  strings, the delete rules, and a `class Registry` that stores it.

Ids are natural numbers drawn from one counter. This stands in for UUIDs and auto-increment keys.
Timestamps come from a clock counter that every insert advances, so "newest first" is a strict order.

## Model

| member | source | states |
|---|---|---|
| Views.OwnerCheckDecides | Backend/core/views.py:20-32 | A safe method always passes the owner check. A write on a profile passes iff the caller is its user. A write on a post passes iff the caller is its author. A write on a skill, card or endorsement never passes, because none of them has a `user` or `author` attribute. |
| Views.ViewPermissionsDecide | Backend/core/views.py:110-116 | The view-level permission classes of every view set and action grant exactly this: the card and endorsement views require login; the others require login or a safe method. |
| Views.ObjectPermissionsDecide | Backend/core/views.py:110-116 | The object-level classes grant a request iff the owner check passes, wherever the view applies it. It applies on the profile and post views, and on card writes (update, partial_update, destroy). |
| Views.PermissionClassesDecide | Backend/core/views.py:110-116 | Both levels at once: the view level and the object level as stated in the two rows above. |
| Views.Refusal | Backend/core/views.py:97 | A refused request is NotAuthenticated exactly when the caller is not logged in, and PermissionDenied exactly when they are. |
| Views.VisibleCards | Backend/core/views.py:99-103 | The card queryset is empty for an anonymous caller. Otherwise it is exactly the caller's own cards, unchanged. |
| Views.VisibleEndorsements | Backend/core/views.py:126-134 | The endorsement queryset is empty for an anonymous caller. Otherwise it is exactly the endorsements the caller gave or that sit on the caller's cards. |
| Views.Lookup | Backend/core/views.py:99-103 | A card or endorsement is found by key iff it is in the caller's queryset. |
| Views.Access | Backend/core/views.py:61-68 | A request on one row succeeds only if the permission classes grant it, the view offers the action, the row is in the queryset, and the object check passes. |
| Views.AccessDecided | Backend/core/views.py:92-116 | Gives the exact outcome of a request on one row. Failing view-level classes give 401 or 403. An action the view does not route gives 405. A key outside the queryset gives 404. A failed owner check gives 401 or 403. Otherwise the row is returned. |
| Views.CollectionAccess | Backend/core/views.py:36-42 | A list, create or custom-action request passes iff the permission classes grant it and the view offers the action. |
| Views.CollectionAccessDecided | Backend/core/views.py:36-42 | The exact outcome of a collection request: 401 or 403 when the classes refuse it, then 405 when the view does not route the action (reachable as create on the read-only skill view). |
| Views.ReadsAreOpen | Backend/core/views.py:36-42 | Retrieving a skill, profile or post succeeds for any caller, anonymous included, iff the row exists. |
| Views.PostWriteNeedsAuthor | Backend/core/views.py:141-151 | Updating or deleting a post succeeds iff the caller is logged in and is its author. Otherwise it fails with 401 when anonymous, 404 for a missing post, or 403 for someone else's post. |
| Views.ProfileWriteNeedsOwner | Backend/core/views.py:61-89 | Updating or deleting a profile succeeds iff the logged-in caller is the profile's user. Otherwise it fails with 401, 404 or 403 as for posts. |
| Views.CardWritesAlwaysDenied | Backend/core/views.py:110-116 | Updating or deleting a card never succeeds, not even for its owner: 401 when anonymous, 404 for a card that is not the caller's, 403 for the caller's own card. |
| Views.CardReadNeedsOwner | Backend/core/views.py:99-103 | Retrieving a card succeeds iff the caller is logged in and the card is on the caller's own profile. |
| Views.EndorsementAccessRule | Backend/core/views.py:119-134 | Retrieving, updating or deleting an endorsement succeeds iff the caller is logged in and either gave it or holds the card it is on. |
| Views.SkillWritesNotAllowed | Backend/core/views.py:36-42 | Creating, updating or deleting a skill always fails: 401 when anonymous, otherwise 405. |
| Views.CreateNeedsLogin | Backend/core/views.py:42 | Create on any view needs login. On the skill view it then gives 405; on every other view it passes. |
| Views.ListCardsIsOwnCards | Backend/core/views.py:99-103 | Listing cards fails iff the caller is anonymous. Otherwise it lists exactly the caller's cards, ordered by skill name. |
| Views.ListEndorsementsIsGivenAndReceived | Backend/core/views.py:126-134 | Listing endorsements fails iff the caller is anonymous. Otherwise it lists exactly the endorsements given or received, newest first. |
| Views.SearchPoolOrdered | Backend/core/views.py:50-55 | Before the slice, search holds exactly the skills whose name contains the query, ignoring case, or every skill when the query is empty. They are ordered by name. |
| Views.SearchSpec | Backend/core/views.py:45-58 | Search returns at most 10 matching skills, ordered by name. A matching skill is left out only when 10 are returned, all ordered before it. |
| Views.SearchWithoutQuery | Backend/core/views.py:54-55 | With no query, search returns the first min(10, number of skills) skills by name. |
| Views.SearchResponse | Backend/core/views.py:57-58 | The response holds, in order, the SkillSerializer rendering (id and name) of each skill found. |
| Views.FeedSpec | Backend/core/views.py:153-162 | The feed holds min(50, number of posts) existing posts, newest first. No post left out is newer than one shown, and every caller gets the same feed. |
| Views.RetrieveProfile | Backend/core/views.py:74-85 | Retrieving a profile succeeds iff it exists and fails with NotFound otherwise. The result is the profile's full serializer rendering: user, bio, location, picture URL and listed skills. |
| Views.CreatePost | Backend/core/views.py:149-151 | Creating a post succeeds iff the caller is logged in and the body validates. The new row is exactly the validated post, with the caller as author. On failure nothing changes. |
| Views.CreateEndorsement | Backend/core/views.py:136-138 | Creating an endorsement succeeds iff the caller is logged in, the body names an existing card, and the caller has not endorsed that card yet. The new row has the caller as endorser. On failure nothing changes. |
| Views.EnsureProfile | Backend/core/views.py:107 | get_or_create leaves an existing profile and the whole store untouched. A user without one gets the blank profile, and nothing else changes. |
| Views.CreateCardAsWritten | Backend/core/views.py:105-108 | As written, creating a card always fails. Anonymous callers and invalid bodies change nothing. Otherwise the profile that get_or_create made stays, and the insert fails on the NOT NULL skill. |
| Views.CreateCard | Backend/core/views.py:105-108 | With a writable skill id, creating a card succeeds iff the caller is logged in, the skill exists, the body validates, and the caller has no card for that skill. The new card is on the caller's profile. A unique clash keeps only the profile. |
| Views.CreateProfile | Backend/core/views.py:61-67 | Creating a profile through the API always fails. A logged-in caller with a valid body hits the NOT NULL user key, because the user field is read-only. |
| Views.UpdatePost | Backend/core/views.py:141-151 | An update succeeds iff the caller may write the post and the body validates. Fields the body leaves out keep their values. Nothing changes on failure. |
| Views.UpdateProfile | Backend/core/views.py:87-89 | An update succeeds iff the caller owns the profile and the body validates. The user link never changes, and omitted fields are kept. |
| Views.UpdateEndorsement | Backend/core/views.py:119-138 | An update succeeds iff the caller is a party to the endorsement, the body validates, and no other endorsement by the same endorser is on the resulting card. The endorser never changes and omitted fields are kept. Nothing changes on failure. |
| Views.DestroyPost | Backend/core/views.py:141-147 | Deleting a post succeeds iff the logged-in caller is its author, and removes exactly that post. |
| Views.DestroyProfile | Backend/core/views.py:61-67 | Deleting a profile succeeds iff the logged-in caller owns it. It removes the profile, its cards, and the endorsements on them. |
| Views.DestroyEndorsement | Backend/core/views.py:119-125 | Deleting an endorsement succeeds iff the logged-in caller gave it or holds its card, and removes exactly that endorsement. |
| Serializers.UserJson | Backend/core/serializers.py:7-13 | A user renders as exactly the fields id, username, first_name and last_name. |
| Serializers.SkillJson | Backend/core/serializers.py:16-22 | A skill renders as exactly id and name. |
| Serializers.CardJson | Backend/core/serializers.py:26-35 | A card renders its declared fields, with the skill nested as its skill rendering. |
| Serializers.ProfileJson | Backend/core/serializers.py:38-48 | A profile renders its declared fields, with the user nested. |
| Serializers.ProfileListsEveryCard | Backend/core/serializers.py:44 | Every card of a profile appears in its listed_skills. |
| Serializers.ProfileListsOnlyOwnCards | Backend/core/serializers.py:44 | Every entry of listed_skills renders one of the profile's own cards. |
| Serializers.EndorsementJson | Backend/core/serializers.py:53-79 | An endorsement renders its readable fields. recipient_username is the card holder's username, endorsed_skill_name is the card's skill name, and endorser is the nested user. |
| Serializers.EndorsementsRender | Backend/core/serializers.py:69-70 | Every stored endorsement can be rendered: the card, its holder and its skill all exist. |
| Serializers.PostJson | Backend/core/serializers.py:81-99 | A post renders its readable fields. The author is nested, and related_skill is nested or null. |
| Serializers.WritablePart | Backend/core/serializers.py:79 | Keeps exactly the keys of the body that are writable, with their values. |
| Serializers.ValidatePost | Backend/core/serializers.py:89-94 | Rejects a body whose content is not a non-empty string, a full save without content, and a related_skill_id that names no skill; rejects nothing else. An accepted body yields exactly its content and skill id. |
| Serializers.ValidateEndorsement | Backend/core/serializers.py:62-66 | Rejects a skill_card_id that names no card, a full save without one, a comment that is not text or null, and a rating that is neither null nor in 1..5; rejects nothing else. An accepted body yields exactly its card, comment and rating. |
| Serializers.ValidateCard | Backend/core/serializers.py:26-35 | Rejects a self_rating that is not an integer in 1..5 and an is_public that is not a boolean; rejects nothing else. An accepted body yields exactly the values it gave, and marks the omitted ones. |
| Serializers.CardValues | Backend/core/models.py:46-50 | An omitted self_rating defaults to 1 and an omitted is_public to true. Given values are kept. |
| Serializers.ValidateNewCard | Backend/core/serializers.py:26-35 | The corrected card body succeeds iff skill_id names an existing skill and the rest validates. |
| Serializers.ValidateProfile | Backend/core/serializers.py:38-48 | Rejects a bio that is not text or null, and a location or picture URL that is neither null nor text within 100 or 200 characters; rejects nothing else. An accepted body yields exactly the values it gave, and marks the omitted ones. |
| Serializers.RatingsOutOfRangeRejected | Backend/core/models.py:46-49 | A rating outside 1..5 fails validation, as a card's self_rating and as an endorsement's endorser_rating. |
| Serializers.UnknownIdsRejected | Backend/core/serializers.py:62-66 | A skill_card_id naming no card, or a related_skill_id naming no skill, fails validation on that field. |
| Serializers.PostBodyReadOnlyIgnored | Backend/core/serializers.py:99 | Read-only and unknown keys in a post body do not affect validation. |
| Serializers.EndorsementBodyReadOnlyIgnored | Backend/core/serializers.py:79 | Read-only keys in an endorsement body, skill_card among them, do not affect validation. |
| Serializers.CardBodyReadOnlyIgnored | Backend/core/serializers.py:30-35 | skill and profile are not writable, and read-only keys do not affect card validation. |
| Serializers.ProfileBodyReadOnlyIgnored | Backend/core/serializers.py:42 | user is not writable, and read-only keys do not affect profile validation. |
| Serializers.PostBodyRoundTrip | Backend/core/serializers.py:81-99 | The writable body of a valid post validates back to its content and skill. |
| Serializers.EndorsementBodyRoundTrip | Backend/core/serializers.py:53-79 | The writable body of a valid endorsement validates back to its card, comment and rating. |
| Serializers.CardBodyRoundTrip | Backend/core/serializers.py:26-35 | The writable body of a valid card validates back to its rating and visibility. |
| Serializers.ProfileBodyRoundTrip | Backend/core/serializers.py:38-48 | The writable body of a valid profile validates back to its bio, location and URL. |
| Models.EmptyDbSatisfiesSchema | Backend/core/models.py:8-101 | The empty database meets every constraint. |
| Models.SkillOrderIsStrict | Backend/core/models.py:12 | Since skill names are unique, two skills that tie in the name order are the same skill. |
| Models.ListingIsOrderedTable | Backend/core/models.py:18-19 | A listing under a total preorder holds exactly the table's rows, sorted, each once. |
| Models.SkillListingOrdered | Backend/core/models.py:18-19 | The skill listing holds every skill once, ordered by name. |
| Models.PostListingOrdered | Backend/core/models.py:73-74 | The post listing holds every post once, newest first. |
| Models.EndorsementListingOrdered | Backend/core/models.py:96-98 | The endorsement listing holds every endorsement once, newest first. |
| Models.CardsOfProfileListingOrdered | Backend/core/models.py:52-54 | A profile's card listing holds exactly its cards, ordered by skill name. |
| Models.ProfileLabelIdentifies | Backend/core/models.py:33-34 | Two profiles have the same label iff they are the same profile, because usernames are unique. |
| Models.PostLabelNamesAuthor | Backend/core/models.py:76-77 | Two posts have the same label iff they have the same author. |
| Models.EndorsementLabelShowsCard | Backend/core/models.py:100-101 | An endorsement's label is "Endorsement for " followed by its card's label. |
| Models.WithCardKeepsSchema | Backend/core/models.py:37-58 | Inserting a card with an existing profile and skill, an unused pair and a rating in 1..5 keeps every constraint. |
| Models.WithEndorsementKeepsSchema | Backend/core/models.py:80-101 | Inserting an endorsement on an existing card by an existing user, with an unused pair, keeps every constraint. |
| Models.WithPostKeepsSchema | Backend/core/models.py:63-77 | Inserting a post by an existing user keeps every constraint. |
| Models.WithProfileKeepsSchema | Backend/core/models.py:24-34 | Giving a user without a profile a blank profile keeps every constraint. |
| Models.AfterDeleteSkillKeepsSchema | Backend/core/models.py:43 | Deleting a skill keeps every constraint. Its cards and their endorsements cascade, and posts are unlinked. |
| Models.AfterDeleteProfileKeepsSchema | Backend/core/models.py:42 | Deleting a profile keeps every constraint. Its cards and their endorsements cascade. |
| Models.AfterDeleteUserKeepsSchema | Backend/core/models.py:28 | Deleting a user keeps every constraint, through all the cascades. |
| Models.UserDeletionCascades | Backend/core/models.py:28 | After a user's deletion, no profile, card, post or endorsement of theirs remains. No endorsement on their cards remains either. |
| Models.UserDeletionKeepsOthers | Backend/core/models.py:68 | A user's deletion removes exactly their own cards and posts and leaves every other row unchanged. |
| Models.UserDeletionKeepsOtherEndorsements | Backend/core/models.py:85-86 | An endorsement survives a user's deletion iff that user neither gave it nor holds its card. |
| Models.SkillDeletionEffects | Backend/core/models.py:70 | Deleting a skill removes exactly its cards and the endorsements on them. Posts keep existing, and only those linked to it lose the link. |
| Database.Store.AddSkill | Backend/core/models.py:12 | Adding a skill fails with a name Conflict iff the name is taken. Otherwise it inserts exactly the new skill. |
| Database.Store.GetOrCreateProfile | Backend/core/models.py:28 | Creates a blank profile iff the user had none, and otherwise changes nothing. |
| Database.Store.CreateCard | Backend/core/models.py:41-53 | A card insert fails with Conflict iff the skill is null, the profile or skill is missing, or the pair is taken. Otherwise it inserts exactly the new card. |
| Database.Store.CreatePost | Backend/core/models.py:68-71 | A post insert fails iff the author or the linked skill is missing, and otherwise inserts the post stamped with the clock. |
| Database.Store.CreateEndorsement | Backend/core/models.py:85-97 | An endorsement insert fails iff the endorser or card is missing or the pair is taken. Otherwise it inserts exactly the new endorsement. |
| Database.Store.UpdatePost | Backend/core/models.py:69-70 | An edit fails iff the new skill link is missing, and otherwise changes only content and link. |
| Database.Store.UpdateProfile | Backend/core/models.py:29-31 | Changes only the profile's bio, location and picture URL. |
| Database.Store.UpdateEndorsement | Backend/core/models.py:86-97 | An edit fails iff the card is missing or another endorsement by the same endorser is on it. Otherwise it changes only card, comment and rating. |
| Database.Store.DeleteEndorsement | Backend/core/models.py:80-101 | Removes exactly that endorsement. |
| Database.Store.DeletePost | Backend/core/models.py:63-77 | Removes exactly that post. |
| Database.Store.DeleteCard | Backend/core/models.py:86 | Removes the card and, by cascade, the endorsements on it. |
| Database.Store.DeleteSkill | Backend/core/models.py:43 | The new state is the skill's deletion with its cascades and SET_NULL, and the constraints still hold. |
| Database.Store.DeleteProfile | Backend/core/models.py:42 | The new state is the profile's deletion with its cascades. |
| Database.Store.DeleteUser | Backend/core/models.py:28 | The new state is the user's deletion with every cascade. |
| Database.Store.UnlinkPosts | Backend/core/models.py:70 | Every post linked to the skill loses the link; nothing else changes. |
| Database.Store.DropRowsBy | Backend/core/models.py:68 | Removes the user's posts and the endorsements the user gave, and nothing else. |
| CustomUser.ParseLevel | Backend/main_sys.py:5-9 | A character is a skill level iff it is B, I or A, and the parsed level has that code. |
| CustomUser.LevelCodeRoundTrip | Backend/main_sys.py:5-9 | Level codes parse back to their level, and different levels have different codes. |
| CustomUser.ConfidenceLabel | Backend/main_sys.py:11-17 | A confidence has a label iff it is one of the choices 1..5. |
| CustomUser.ConfidenceLabelsDistinct | Backend/main_sys.py:11-17 | Different confidence choices have different labels. |
| CustomUser.DefaultsAreChoices | Backend/main_sys.py:49-54 | The default confidence 3 is a choice labelled Solid, and the default level code is B. |
| CustomUser.ConfidenceDisplay | Backend/main_sys.py:145-146 | The display of a confidence is its label for a choice, and its decimal digits otherwise. |
| CustomUser.NatString | Backend/main_sys.py:145-146 | The decimal string of a natural number is all digits and starts with 0 only for zero. |
| CustomUser.NatStringValue | Backend/main_sys.py:145-146 | The digits of a natural number denote that number. |
| CustomUser.IntStringValue | Backend/main_sys.py:145-146 | The decimal string of an integer, sign included, denotes that integer, as `str()` does in the display fallback. |
| CustomUser.IntString | Backend/main_sys.py:145-146 | The decimal string of an integer is non-empty and starts with a minus sign iff the integer is negative. |
| CustomUser.AccountStr | Backend/main_sys.py:56-57 | A profile's string is its username, or "New User" when that is empty. It is never empty. |
| CustomUser.EndorsementStr | Backend/main_sys.py:145-146 | An endorsement's string begins with the endorser's username and ends with the confidence display in parentheses. |
| CustomUser.SkillListingOrdered | Backend/main_sys.py:92-93 | The skill listing holds every skill once, ordered by name. |
| CustomUser.EndorsementListingOrdered | Backend/main_sys.py:140-143 | The endorsement listing holds every endorsement once, newest first. |
| CustomUser.WithAccountConsistent | Backend/main_sys.py:21-57 | Adding a profile with a free username and fields within bounds keeps every constraint. |
| CustomUser.WithSkillConsistent | Backend/main_sys.py:61-90 | Adding a skill with a free name, fields within bounds and an existing parent keeps every constraint. |
| CustomUser.WithEndorsementConsistent | Backend/main_sys.py:101-142 | Adding an endorsement for an unused triple of existing rows, with a confidence choice, keeps every constraint. |
| CustomUser.AfterDeleteSkillConsistent | Backend/main_sys.py:83-90 | Deleting a skill keeps every constraint. Child skills lose their parent and the skill's endorsements go. |
| CustomUser.AfterDeleteAccountConsistent | Backend/main_sys.py:106-119 | Deleting a profile keeps every constraint. The endorsements it gave or received go. |
| CustomUser.AfterDeleteEndorsementConsistent | Backend/main_sys.py:101-146 | Deleting an endorsement keeps every constraint. |
| CustomUser.SkillDeletionOrphans | Backend/main_sys.py:83-90 | After a skill's deletion no skill names it as parent, former children survive without a parent, and no endorsement for it remains. |
| CustomUser.AccountDeletionCascades | Backend/main_sys.py:106-119 | After a profile's deletion no endorsement it gave or received remains. |
| CustomUser.OneEndorsementPerTriple | Backend/main_sys.py:142 | Two endorsements with the same endorser, endorsee and skill are the same endorsement. |
| CustomUser.Registry.constructor | Backend/main_sys.py:21-146 | The registry starts empty and consistent. |
| CustomUser.Registry.AddAccount | Backend/main_sys.py:27-54 | Fails, changing nothing, iff the username is empty or over 150 characters, bio, location or primary skill exceeds its bound, or the username is taken. Otherwise adds the profile with the level defaulting to Beginner. |
| CustomUser.Registry.AddSkill | Backend/main_sys.py:66-90 | Fails, changing nothing, iff name or category is empty or exceeds its bound, the name is taken, or the parent is missing. Otherwise adds the skill. |
| CustomUser.Registry.AddEndorsement | Backend/main_sys.py:106-142 | Fails, changing nothing, iff the confidence is not a choice, a referenced row is missing, or the triple is taken. Otherwise adds the endorsement, with confidence defaulting to 3. |
| CustomUser.Registry.DeleteSkill | Backend/main_sys.py:83-90 | The new state is the skill's deletion, with children unparented and its endorsements cascaded. |
| CustomUser.Registry.UnlinkSkill | Backend/main_sys.py:85 | Clears the parent of exactly the skill's children and changes nothing else. |
| CustomUser.Registry.DeleteAccount | Backend/main_sys.py:106-119 | The new state is the profile's deletion, with its endorsements cascaded. |
| CustomUser.Registry.DeleteEndorsement | Backend/main_sys.py:101-146 | Removes exactly that endorsement and keeps every constraint. |

## Left out

- HTTP transport, status-code objects, content negotiation, pagination and the browsable API are left
  out. A response is an `Ok` value or an `Error` kind.
- Authentication and sessions are left out. A caller is an optional user id, and it counts as logged in
  only while that user row exists.
- Profiles are looked up by user id. The view's `lookup_field` is the username. Since usernames are
  unique the two identify the same row, but the path format is not modelled.
- Concurrency and transactions are left out. Each request runs alone. Writes are not atomic across a
  request, as by Django's default, which is what `Views.CreateCardAsWritten` shows.
- UUID primary keys and `auto_now_add` timestamps are left out. They become one id counter and a
  monotone clock.
- `URLField` format checks, `TextField` content and `trim_whitespace` are left out; only length bounds
  are checked.
- Type coercion of JSON values is left out: integers must arrive as integers and booleans as booleans.
- Serializers.ValidatePost: reports only the first invalid field, where DRF collects every field error.
  The same holds for the other Validate functions.
- `select_related` and `db_index` are left out, because they change performance only.
- Django's built-in `User` model is reduced to id, username, first and last name. Creating users is
  not an operation of this core; `Database.Store.AddUser` exists only to populate the store.
- Backend/core/admin.py and the URL configuration are not part of this model.
- CustomUser.Registry.AddAccount: required fields, choices and `max_length` are checked as a model
  form or serializer validates them; a plain `save()` runs none of these checks. The bio's bound
  is one only forms enforce. The username's character validator is not modelled.
- CustomUser.Registry.AddSkill: required fields and `max_length` are checked as a model form
  validates them; a plain `save()` does not.
- CustomUser: the inherited `AbstractUser` fields other than username, password hashing and the
  `AUTH_USER_MODEL` wiring are left out.
- CustomUser.EndorsementStr: the contract fixes how the string begins and ends, not the endorsee and skill names in between.
- Views.CreateProfile: this is modelled as a function on the snapshot. It can never write, since it
  always fails before the insert.

## Findings

| source | as written | input that shows it | evidently intended | confidence | as-written member | corrected member |
|---|---|---|---|---|---|---|
| Backend/core/views.py:105-108 | The card serializer declares `skill` read-only and has no writable skill id. So `perform_create` saves a card whose skill is NULL, which the NOT NULL foreign key rejects. The profile made by `get_or_create` just before stays. | A logged-in user with no profile POSTs `{"self_rating": 3}` or any other valid body to the card endpoint. | The body carries a writable `skill_id` naming an existing skill, and the card is created on the caller's profile. | not executed | Views.CreateCardAsWritten | Views.CreateCard |
