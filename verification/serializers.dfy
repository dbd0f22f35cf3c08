/**
 * The serializers: which fields each resource shows and accepts, how a row is
 * rendered as JSON, and how a request body is validated before a save. A field
 * marked read-only is rendered but never read from a body; a write-only field is
 * read from a body but never rendered.
 */
module Serializers {
  import opened Common
  import opened Tables
  import opened Ordering
  import opened Models

  datatype Json =
    | JNull
    | JBool(b: bool)
    | JInt(n: int)
    | JStr(s: string)
    | JArr(items: seq<Json>)
    | JObj(fields: map<string, Json>)

  /** A request or response body. */
  type Body = map<string, Json>

  /** A serializer's declared field list and which of those fields are read-only or write-only. */
  datatype Fields = Fields(declared: set<string>, readOnly: set<string>, writeOnly: set<string>)
  {
    /** The keys a rendered row carries. */
    function Readable(): set<string> { declared - writeOnly }

    /** The keys validation reads from a body. */
    function Writable(): set<string> { declared - readOnly }
  }

  const UserFields := Fields({"id", "username", "first_name", "last_name"}, {"id"}, {})

  const SkillFields := Fields({"id", "name"}, {"id"}, {})

  /** The nested skill is read-only; the profile is never a declared field at all. */
  const CardFields := Fields({"id", "skill", "self_rating", "is_public"}, {"id", "skill"}, {})

  const ProfileFields := Fields({"user", "bio", "location", "profile_picture_url", "listed_skills"},
                                {"user", "listed_skills"}, {})

  /** endorsed_at is stamped on insert, so it is read-only like the identity fields. */
  const EndorsementFields := Fields({"id", "endorser", "skill_card", "skill_card_id", "recipient_username",
                                     "endorsed_skill_name", "comment", "endorser_rating", "endorsed_at"},
                                    {"id", "endorser", "skill_card", "recipient_username",
                                     "endorsed_skill_name", "endorsed_at"},
                                    {"skill_card_id"})

  const PostFields := Fields({"id", "author", "content", "related_skill", "related_skill_id", "created_at"},
                             {"id", "author", "related_skill", "created_at"}, {"related_skill_id"})

  function OptStr(s: Option<string>): Json {
    if s.Some? then JStr(s.value) else JNull
  }

  function OptInt(n: Option<int>): Json {
    if n.Some? then JInt(n.value) else JNull
  }

  // ---------------------------------------------------------------- rendering

  function UserJson(u: User): (j: Json)
    ensures j.JObj? && j.fields.Keys == UserFields.Readable()
  {
    JObj(map["id" := JInt(u.id), "username" := JStr(u.username), "first_name" := JStr(u.firstName),
             "last_name" := JStr(u.lastName)])
  }

  /** A skill shows its id and name and nothing else. */
  function SkillJson(s: Skill): (j: Json)
    ensures j.JObj? && j.fields.Keys == SkillFields.Readable() == {"id", "name"}
  {
    JObj(map["id" := JInt(s.id), "name" := JStr(s.name)])
  }

  /** A card shows its skill nested; the profile it belongs to is not shown. */
  function CardJson(db: Db, c: UserSkill): (j: Json)
    requires c.skill in db.skills
    ensures j.JObj? && j.fields.Keys == CardFields.Readable()
    ensures j.fields["skill"] == SkillJson(db.skills[c.skill])
  {
    JObj(map["id" := JInt(c.id), "skill" := SkillJson(db.skills[c.skill]), "self_rating" := JInt(c.selfRating),
             "is_public" := JBool(c.isPublic)])
  }

  /** Every card's skill is a row: the foreign key a card's rendering follows. */
  predicate CardSkillsExist(db: Db) {
    forall k :: k in db.cards ==> db.cards[k].skill in db.skills
  }

  lemma CardSkillsResolve(db: Db)
    requires CardSkillsExist(db)
    ensures forall c :: c in db.cards.Values ==> c.skill in db.skills
  {
  }

  lemma ListingSkillsExist(db: Db, u: UserId)
    requires CardSkillsExist(db)
    ensures forall c :: c in CardsOfProfileListing(db, u) ==> c.skill in db.skills
  {
    var rows := Rows(db.cards, db.nextId);
    var mine := Filter(rows, (c: UserSkill) => c.profile == u);
    forall c | c in CardsOfProfileListing(db, u) ensures c.skill in db.skills {
      SortByMembers(mine, CardBySkillName(db.skills), c);
    }
  }

  /** The cards of profile u, rendered in the order the profile lists them. */
  function ListedSkills(db: Db, u: UserId): (r: seq<Json>)
    requires CardSkillsExist(db)
    ensures |r| == |CardsOfProfileListing(db, u)|
  {
    var cs := CardsOfProfileListing(db, u);
    ListingSkillsExist(db, u);
    seq(|cs|, i requires 0 <= i < |cs| => CardJson(db, cs[i]))
  }

  function ProfileJson(db: Db, p: SkillProfile): (j: Json)
    requires CardSkillsExist(db) && p.user in db.users
    ensures j.JObj? && j.fields.Keys == ProfileFields.Readable()
    ensures j.fields["user"] == UserJson(db.users[p.user])
  {
    JObj(map["user" := UserJson(db.users[p.user]), "bio" := OptStr(p.bio), "location" := OptStr(p.location),
             "profile_picture_url" := OptStr(p.pictureUrl), "listed_skills" := JArr(ListedSkills(db, p.user))])
  }

  /**
   * A profile lists every card it owns, public or not, and nothing else.
   */
  lemma ProfileListsEveryCard(db: Db, u: UserId, c: UserSkill)
    requires Schema(db) && u in db.profiles && c.skill in db.skills
    ensures ProfileJson(db, db.profiles[u]).fields["listed_skills"].JArr?
    ensures c in db.cards.Values && c.profile == u ==>
              CardJson(db, c) in ProfileJson(db, db.profiles[u]).fields["listed_skills"].items
  {
    var cs := CardsOfProfileListing(db, u);
    CardsOfProfileListingOrdered(db, u);
    if c in db.cards.Values && c.profile == u {
      var i :| 0 <= i < |cs| && cs[i] == c;
      assert ListedSkills(db, u)[i] == CardJson(db, c);
    }
  }

  /** Every listed item renders one of the profile's own cards. */
  lemma ProfileListsOnlyOwnCards(db: Db, u: UserId, j: Json)
    requires Schema(db) && u in db.profiles
    requires j in ListedSkills(db, u)
    ensures exists c :: c in db.cards.Values && c.profile == u && c.skill in db.skills && j == CardJson(db, c)
  {
    var cs := CardsOfProfileListing(db, u);
    CardsOfProfileListingOrdered(db, u);
    CardSkillsResolve(db);
    var i :| 0 <= i < |ListedSkills(db, u)| && ListedSkills(db, u)[i] == j;
    assert cs[i] in cs;
  }

  /**
   * An endorsement shows who gave it, which card it is on, and the card's holder and
   * skill by name; the writable card id is not shown.
   */
  function EndorsementJson(db: Db, e: Endorsement): (j: Json)
    requires EndorsementRefsExist(db, e)
    ensures j.JObj? && j.fields.Keys == EndorsementFields.Readable()
    ensures j.fields["recipient_username"] == JStr(db.users[db.cards[e.skillCard].profile].username)
    ensures j.fields["endorsed_skill_name"] == JStr(db.skills[db.cards[e.skillCard].skill].name)
    ensures j.fields["endorser"] == UserJson(db.users[e.endorser])
  {
    var card := db.cards[e.skillCard];
    JObj(map["id" := JInt(e.id), "endorser" := UserJson(db.users[e.endorser]), "skill_card" := JInt(e.skillCard),
             "recipient_username" := JStr(db.users[card.profile].username),
             "endorsed_skill_name" := JStr(db.skills[card.skill].name), "comment" := OptStr(e.comment),
             "endorser_rating" := OptInt(e.endorserRating), "endorsed_at" := JInt(e.endorsedAt)])
  }

  /** The rows an endorsement's rendering follows: its endorser, its card, and the card's holder and skill. */
  predicate EndorsementRefsExist(db: Db, e: Endorsement) {
    && e.endorser in db.users && e.skillCard in db.cards
    && db.cards[e.skillCard].profile in db.users && db.cards[e.skillCard].skill in db.skills
  }

  /** In a valid database every endorsement can be rendered. */
  lemma EndorsementsRender(db: Db, e: Endorsement)
    requires Schema(db) && e in db.endorsements.Values
    ensures EndorsementRefsExist(db, e)
  {
  }

  /** The rows a post's rendering follows: its author and, if linked, its skill. */
  predicate PostRefsExist(db: Db, p: Post) {
    p.author in db.users && (p.relatedSkill.Some? ==> p.relatedSkill.value in db.skills)
  }

  /** A post shows its skill nested (or null); the writable skill id is not shown. */
  function PostJson(db: Db, p: Post): (j: Json)
    requires PostRefsExist(db, p)
    ensures j.JObj? && j.fields.Keys == PostFields.Readable()
    ensures j.fields["author"] == UserJson(db.users[p.author])
    ensures j.fields["related_skill"] == if p.relatedSkill.Some? then SkillJson(db.skills[p.relatedSkill.value]) else JNull
  {
    JObj(map["id" := JInt(p.id), "author" := UserJson(db.users[p.author]), "content" := JStr(p.content),
             "related_skill" := if p.relatedSkill.Some? then SkillJson(db.skills[p.relatedSkill.value]) else JNull,
             "created_at" := JInt(p.createdAt)])
  }

  // ---------------------------------------------------------------- validation

  /** The part of a body validation reads: the declared, writable keys. */
  function WritablePart(data: Body, f: Fields): (r: Body)
    ensures r.Keys == data.Keys * f.Writable()
    ensures forall k :: k in data && k in f.Writable() ==> k in r && r[k] == data[k]
  {
    map k | k in data && k in f.Writable() :: data[k]
  }

  /** A primary key given as an integer that names a row of the table. */
  predicate Resolves<T>(j: Json, table: map<nat, T>) {
    j.JInt? && j.n >= 0 && j.n as nat in table
  }

  /** The validated post fields; a field the body omitted is None. */
  datatype PostInput = PostInput(content: Option<string>, relatedSkill: Option<SkillId>)

  /**
   * content is required on a full write and may not be blank; related_skill_id is
   * optional, not nullable, and must name an existing skill.
   */
  function ValidatePost(db: Db, data: Body, partial: bool): (r: Result<PostInput>)
    ensures r.Err? ==> r.error.Invalid? && r.error.field in PostFields.Writable()
    ensures r.Ok? ==> (partial || r.value.content.Some?)
    ensures r.Ok? && r.value.content.Some? ==> r.value.content.value != ""
    ensures r.Ok? ==> (r.value.relatedSkill.Some? <==> "related_skill_id" in data)
    ensures r.Ok? && r.value.relatedSkill.Some? ==> r.value.relatedSkill.value in db.skills
    ensures r.Ok? ==> (r.value.content.Some? <==> "content" in data)
    ensures r.Ok? && r.value.content.Some? ==> data["content"] == JStr(r.value.content.value)
    ensures r.Ok? && r.value.relatedSkill.Some? ==> data["related_skill_id"] == JInt(r.value.relatedSkill.value)
    ensures "content" in data && !(data["content"].JStr? && data["content"].s != "") ==> r == Err(Invalid("content"))
    ensures !partial && "content" !in data ==> r == Err(Invalid("content"))
    ensures "related_skill_id" in data && !Resolves(data["related_skill_id"], db.skills) ==> r.Err?
    ensures r.Err? ==> ("content" in data && !(data["content"].JStr? && data["content"].s != "")) ||
                       (!partial && "content" !in data) ||
                       ("related_skill_id" in data && !Resolves(data["related_skill_id"], db.skills))
  {
    if "content" in data && !(data["content"].JStr? && data["content"].s != "") then Err(Invalid("content"))
    else if "content" !in data && !partial then Err(Invalid("content"))
    else if "related_skill_id" in data && !Resolves(data["related_skill_id"], db.skills) then
      Err(Invalid("related_skill_id"))
    else
      Ok(PostInput(if "content" in data then Some(data["content"].s) else None,
                   if "related_skill_id" in data then Some(data["related_skill_id"].n as nat) else None))
  }

  /** The validated endorsement fields; an outer None means the body omitted the field. */
  datatype EndorsementInput = EndorsementInput(card: Option<CardId>, comment: Option<Option<string>>,
                                               rating: Option<Option<int>>)

  /**
   * skill_card_id is required on a full write and must name an existing card; comment
   * may be null or any text; endorser_rating may be null or 1..5.
   */
  function ValidateEndorsement(db: Db, data: Body, partial: bool): (r: Result<EndorsementInput>)
    ensures r.Err? ==> r.error.Invalid? && r.error.field in EndorsementFields.Writable()
    ensures r.Ok? ==> (partial || r.value.card.Some?)
    ensures r.Ok? ==> (r.value.card.Some? <==> "skill_card_id" in data)
    ensures r.Ok? && r.value.card.Some? ==> r.value.card.value in db.cards
    ensures r.Ok? && r.value.rating.Some? ==> OptionalRatingInRange(r.value.rating.value)
    ensures r.Ok? && r.value.card.Some? ==> data["skill_card_id"] == JInt(r.value.card.value)
    ensures r.Ok? ==> (r.value.comment.Some? <==> "comment" in data) && (r.value.rating.Some? <==> "endorser_rating" in data)
    ensures r.Ok? && r.value.comment.Some? ==> data["comment"] == OptStr(r.value.comment.value)
    ensures r.Ok? && r.value.rating.Some? ==> data["endorser_rating"] == OptInt(r.value.rating.value)
    ensures "skill_card_id" in data && !Resolves(data["skill_card_id"], db.cards) ==> r == Err(Invalid("skill_card_id"))
    ensures !partial && "skill_card_id" !in data ==> r == Err(Invalid("skill_card_id"))
    ensures "comment" in data && !(data["comment"].JNull? || data["comment"].JStr?) ==> r.Err?
    ensures "endorser_rating" in data && !(data["endorser_rating"].JNull? || data["endorser_rating"].JInt?) ==> r.Err?
    ensures "endorser_rating" in data && data["endorser_rating"].JInt? && !RatingInRange(data["endorser_rating"].n) ==> r.Err?
    ensures r.Err? ==> ("skill_card_id" in data && !Resolves(data["skill_card_id"], db.cards)) ||
                       (!partial && "skill_card_id" !in data) ||
                       ("comment" in data && !(data["comment"].JNull? || data["comment"].JStr?)) ||
                       ("endorser_rating" in data && !(data["endorser_rating"].JNull? ||
                         (data["endorser_rating"].JInt? && RatingInRange(data["endorser_rating"].n))))
  {
    if "skill_card_id" in data && !Resolves(data["skill_card_id"], db.cards) then Err(Invalid("skill_card_id"))
    else if "skill_card_id" !in data && !partial then Err(Invalid("skill_card_id"))
    else if "comment" in data && !(data["comment"].JNull? || data["comment"].JStr?) then Err(Invalid("comment"))
    else if "endorser_rating" in data &&
            !(data["endorser_rating"].JNull? ||
              (data["endorser_rating"].JInt? && RatingInRange(data["endorser_rating"].n))) then
      Err(Invalid("endorser_rating"))
    else
      Ok(EndorsementInput(
        if "skill_card_id" in data then Some(data["skill_card_id"].n as nat) else None,
        if "comment" !in data then None
        else if data["comment"].JNull? then Some(None) else Some(Some(data["comment"].s)),
        if "endorser_rating" !in data then None
        else if data["endorser_rating"].JNull? then Some(None) else Some(Some(data["endorser_rating"].n))))
  }

  /** The validated card fields; each has a model default, so none is required. */
  datatype CardInput = CardInput(selfRating: Option<int>, isPublic: Option<bool>)

  function ValidateCard(data: Body): (r: Result<CardInput>)
    ensures r.Err? ==> r.error.Invalid? && r.error.field in CardFields.Writable()
    ensures r.Ok? && r.value.selfRating.Some? ==> RatingInRange(r.value.selfRating.value)
    ensures r.Ok? ==> (r.value.selfRating.Some? <==> "self_rating" in data)
    ensures r.Ok? ==> (r.value.isPublic.Some? <==> "is_public" in data)
    ensures r.Ok? && r.value.selfRating.Some? ==> data["self_rating"] == JInt(r.value.selfRating.value)
    ensures r.Ok? && r.value.isPublic.Some? ==> data["is_public"] == JBool(r.value.isPublic.value)
    ensures "self_rating" in data && !(data["self_rating"].JInt? && RatingInRange(data["self_rating"].n)) ==>
              r == Err(Invalid("self_rating"))
    ensures "is_public" in data && !data["is_public"].JBool? ==> r.Err?
    ensures r.Err? ==> ("self_rating" in data && !(data["self_rating"].JInt? && RatingInRange(data["self_rating"].n))) ||
                       ("is_public" in data && !data["is_public"].JBool?)
  {
    if "self_rating" in data && !(data["self_rating"].JInt? && RatingInRange(data["self_rating"].n)) then
      Err(Invalid("self_rating"))
    else if "is_public" in data && !data["is_public"].JBool? then Err(Invalid("is_public"))
    else
      Ok(CardInput(if "self_rating" in data then Some(data["self_rating"].n) else None,
                   if "is_public" in data then Some(data["is_public"].b) else None))
  }

  /** The values a new card gets: the body's, or the model defaults (rating 1, public). */
  function CardValues(input: CardInput): (r: (int, bool))
    ensures input.selfRating.None? ==> r.0 == DefaultSelfRating
    ensures input.isPublic.None? ==> r.1 == DefaultIsPublic
    ensures input.selfRating.Some? ==> r.0 == input.selfRating.value
    ensures input.isPublic.Some? ==> r.1 == input.isPublic.value
  {
    (if input.selfRating.Some? then input.selfRating.value else DefaultSelfRating,
     if input.isPublic.Some? then input.isPublic.value else DefaultIsPublic)
  }

  /**
   * The card fields with the skill made writable: a write-only skill_id that must name
   * an existing skill, next to the read-only nested skill.
   */
  const CardFieldsWithSkillId := Fields({"id", "skill", "skill_id", "self_rating", "is_public"},
                                        {"id", "skill"}, {"skill_id"})

  /** Validation of a new card's body when the skill can be chosen through skill_id. */
  function ValidateNewCard(db: Db, data: Body): (r: Result<(SkillId, CardInput)>)
    ensures r.Err? ==> r.error.Invalid? && r.error.field in CardFieldsWithSkillId.Writable()
    ensures r.Ok? ==> r.value.0 in db.skills && "skill_id" in data && data["skill_id"] == JInt(r.value.0)
    ensures r.Ok? <==> "skill_id" in data && Resolves(data["skill_id"], db.skills) && ValidateCard(data).Ok?
    ensures r.Ok? ==> ValidateCard(data) == Ok(r.value.1)
  {
    if !("skill_id" in data && Resolves(data["skill_id"], db.skills)) then Err(Invalid("skill_id"))
    else
      match ValidateCard(data)
      case Err(e) => Err(e)
      case Ok(input) => Ok((data["skill_id"].n as nat, input))
  }

  /** The validated profile fields; an outer None means the body omitted the field. */
  datatype ProfileInput = ProfileInput(bio: Option<Option<string>>, location: Option<Option<string>>,
                                       pictureUrl: Option<Option<string>>)

  /** A nullable text field within a length limit. */
  predicate NullableText(j: Json, max: nat) {
    j.JNull? || (j.JStr? && |j.s| <= max)
  }

  function NullableValue(j: Json): Option<string> {
    if j.JStr? then Some(j.s) else None
  }

  /** bio, location and profile_picture_url are all optional and nullable. */
  function ValidateProfile(data: Body): (r: Result<ProfileInput>)
    ensures r.Err? ==> r.error.Invalid? && r.error.field in ProfileFields.Writable()
    ensures r.Ok? && r.value.location.Some? ==> OptionalWithin(r.value.location.value, LocationMaxLength)
    ensures r.Ok? && r.value.pictureUrl.Some? ==> OptionalWithin(r.value.pictureUrl.value, PictureUrlMaxLength)
    ensures r.Ok? ==> (r.value.bio.Some? <==> "bio" in data) && (r.value.location.Some? <==> "location" in data) &&
                      (r.value.pictureUrl.Some? <==> "profile_picture_url" in data)
    ensures r.Ok? && r.value.bio.Some? ==> data["bio"] == OptStr(r.value.bio.value)
    ensures r.Ok? && r.value.location.Some? ==> data["location"] == OptStr(r.value.location.value)
    ensures r.Ok? && r.value.pictureUrl.Some? ==> data["profile_picture_url"] == OptStr(r.value.pictureUrl.value)
    ensures "bio" in data && !(data["bio"].JNull? || data["bio"].JStr?) ==> r == Err(Invalid("bio"))
    ensures "location" in data && data["location"].JStr? && |data["location"].s| > LocationMaxLength ==> r.Err?
    ensures ("profile_picture_url" in data && data["profile_picture_url"].JStr? &&
             |data["profile_picture_url"].s| > PictureUrlMaxLength) ==> r.Err?
    ensures r.Err? ==> ("bio" in data && !(data["bio"].JNull? || data["bio"].JStr?)) ||
                       ("location" in data && !NullableText(data["location"], LocationMaxLength)) ||
                       ("profile_picture_url" in data && !NullableText(data["profile_picture_url"], PictureUrlMaxLength))
  {
    if "bio" in data && !(data["bio"].JNull? || data["bio"].JStr?) then Err(Invalid("bio"))
    else if "location" in data && !NullableText(data["location"], LocationMaxLength) then Err(Invalid("location"))
    else if "profile_picture_url" in data && !NullableText(data["profile_picture_url"], PictureUrlMaxLength) then
      Err(Invalid("profile_picture_url"))
    else
      Ok(ProfileInput(if "bio" in data then Some(NullableValue(data["bio"])) else None,
                      if "location" in data then Some(NullableValue(data["location"])) else None,
                      if "profile_picture_url" in data then Some(NullableValue(data["profile_picture_url"]))
                      else None))
  }

  /** A value the body gave, or the one already stored. */
  function Given<T>(given: Option<T>, current: T): T {
    if given.Some? then given.value else current
  }

  // ---------------------------------------------------------------- read-only fields are ignored

  /** Identity fields in a post body (id, author, the nested skill, created_at) change nothing. */
  lemma PostBodyReadOnlyIgnored(db: Db, data: Body, partial: bool)
    ensures ValidatePost(db, data, partial) == ValidatePost(db, WritablePart(data, PostFields), partial)
  {
  }

  /** endorser, skill_card and the display fields in an endorsement body change nothing. */
  lemma EndorsementBodyReadOnlyIgnored(db: Db, data: Body, partial: bool)
    ensures ValidateEndorsement(db, data, partial) == ValidateEndorsement(db, WritablePart(data, EndorsementFields), partial)
  {
  }

  /** A card body cannot choose the skill (or the profile): those keys change nothing. */
  lemma CardBodyReadOnlyIgnored(data: Body)
    ensures ValidateCard(data) == ValidateCard(WritablePart(data, CardFields))
    ensures "skill" !in CardFields.Writable() && "profile" !in CardFields.Writable()
  {
  }

  lemma ProfileBodyReadOnlyIgnored(data: Body)
    ensures ValidateProfile(data) == ValidateProfile(WritablePart(data, ProfileFields))
    ensures "user" !in ProfileFields.Writable()
  {
  }

  // ---------------------------------------------------------------- validators guard the store

  /** A rating outside 1..5 never passes validation, neither on a card nor on an endorsement. */
  lemma RatingsOutOfRangeRejected(db: Db, n: int, card: Json, partial: bool)
    requires !RatingInRange(n)
    ensures ValidateCard(map["self_rating" := JInt(n)]) == Err(Invalid("self_rating"))
    ensures ValidateEndorsement(db, map["skill_card_id" := card, "endorser_rating" := JInt(n)], partial).Err?
  {
  }

  /** A skill_card_id or related_skill_id that names no row never passes validation. */
  lemma UnknownIdsRejected(db: Db, id: int, partial: bool)
    requires id < 0 || (id as nat !in db.cards && id as nat !in db.skills)
    ensures ValidateEndorsement(db, map["skill_card_id" := JInt(id)], partial) == Err(Invalid("skill_card_id"))
    ensures ValidatePost(db, map["content" := JStr("x"), "related_skill_id" := JInt(id)], partial) ==
            Err(Invalid("related_skill_id"))
  {
  }

  // ---------------------------------------------------------------- round trips

  /** The body a client writes to reproduce a post: its content and, if linked, its skill id. */
  function PostBody(p: Post): Body {
    if p.relatedSkill.Some? then map["content" := JStr(p.content), "related_skill_id" := JInt(p.relatedSkill.value)]
    else map["content" := JStr(p.content)]
  }

  lemma PostBodyRoundTrip(db: Db, p: Post)
    requires p.content != "" && (p.relatedSkill.Some? ==> p.relatedSkill.value in db.skills)
    ensures ValidatePost(db, PostBody(p), false) == Ok(PostInput(Some(p.content), p.relatedSkill))
  {
  }

  function EndorsementBody(e: Endorsement): Body {
    map["skill_card_id" := JInt(e.skillCard), "comment" := OptStr(e.comment),
        "endorser_rating" := OptInt(e.endorserRating)]
  }

  lemma EndorsementBodyRoundTrip(db: Db, e: Endorsement)
    requires e.skillCard in db.cards && OptionalRatingInRange(e.endorserRating)
    ensures ValidateEndorsement(db, EndorsementBody(e), false) ==
            Ok(EndorsementInput(Some(e.skillCard), Some(e.comment), Some(e.endorserRating)))
  {
  }

  function CardBody(c: UserSkill): Body {
    map["self_rating" := JInt(c.selfRating), "is_public" := JBool(c.isPublic)]
  }

  lemma CardBodyRoundTrip(c: UserSkill)
    requires RatingInRange(c.selfRating)
    ensures ValidateCard(CardBody(c)) == Ok(CardInput(Some(c.selfRating), Some(c.isPublic)))
    ensures CardValues(ValidateCard(CardBody(c)).value) == (c.selfRating, c.isPublic)
  {
  }

  function ProfileBody(p: SkillProfile): Body {
    map["bio" := OptStr(p.bio), "location" := OptStr(p.location), "profile_picture_url" := OptStr(p.pictureUrl)]
  }

  lemma ProfileBodyRoundTrip(p: SkillProfile)
    requires OptionalWithin(p.location, LocationMaxLength) && OptionalWithin(p.pictureUrl, PictureUrlMaxLength)
    ensures ValidateProfile(ProfileBody(p)) == Ok(ProfileInput(Some(p.bio), Some(p.location), Some(p.pictureUrl)))
  {
  }
}
