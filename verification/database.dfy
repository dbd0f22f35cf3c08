/**
 * The database as a mutable store: one table per model, written through the ORM
 * calls the views make (create, save, get_or_create, delete). Each method is proved
 * against the pure transition of the same name in Models, and keeps the schema.
 */
module Database {
  import opened Common
  import opened Tables
  import opened Models

  class Store {
    var users: map<UserId, User>
    var skills: map<SkillId, Skill>
    var profiles: map<UserId, SkillProfile>
    var cards: map<CardId, UserSkill>
    var posts: map<PostId, Post>
    var endorsements: map<EndorsementId, Endorsement>
    var nextId: nat
    var clock: nat

    /** The store's contents as a value. */
    function Snapshot(): Db
      reads this
    {
      Db(users, skills, profiles, cards, posts, endorsements, nextId, clock)
    }

    ghost predicate Valid()
      reads this
    {
      Schema(Snapshot())
    }

    constructor ()
      ensures Snapshot() == EmptyDb && Valid()
    {
      users, skills, profiles, cards, posts, endorsements := map[], map[], map[], map[], map[], map[];
      nextId, clock := 0, 0;
      EmptyDbSatisfiesSchema();
    }

    /** Hands out the next row id. */
    method FreshId() returns (id: nat)
      modifies this
      ensures id == old(nextId) && nextId == old(nextId) + 1
      ensures users == old(users) && skills == old(skills) && profiles == old(profiles)
      ensures cards == old(cards) && posts == old(posts) && endorsements == old(endorsements)
      ensures clock == old(clock)
    {
      id := nextId;
      nextId := nextId + 1;
    }

    // ------------------------------------------------------------ inserts

    /** Creates an auth user; the username column is unique. */
    method AddUser(username: string, firstName: string, lastName: string) returns (r: Result<UserId>)
      requires Valid()
      modifies this
      ensures Valid()
      ensures r.Err? <==> UsernameTaken(old(users), username)
      ensures r.Err? ==> r.error == Conflict("username") && Snapshot() == old(Snapshot())
      ensures r.Ok? ==> r.value == old(nextId) && Snapshot() == WithUser(old(Snapshot()), username, firstName, lastName)
    {
      if UsernameTaken(users, username) {
        return Err(Conflict("username"));
      }
      ghost var d := WithUser(Snapshot(), username, firstName, lastName);
      WithUserKeepsSchema(Snapshot(), username, firstName, lastName);
      var id := FreshId();
      users := users[id := User(id, username, firstName, lastName)];
      assert Snapshot() == d;
      r := Ok(id);
    }

    /** Creates a skill; its name is validated to 100 characters and unique. */
    method AddSkill(name: string, description: Option<string>) returns (r: Result<SkillId>)
      requires Valid() && |name| <= SkillNameMaxLength
      modifies this
      ensures Valid()
      ensures r.Err? <==> SkillNameTaken(old(skills), name)
      ensures r.Err? ==> r.error == Conflict("name") && Snapshot() == old(Snapshot())
      ensures r.Ok? ==> r.value == old(nextId) && Snapshot() == WithSkill(old(Snapshot()), name, description)
    {
      if SkillNameTaken(skills, name) {
        return Err(Conflict("name"));
      }
      ghost var d := WithSkill(Snapshot(), name, description);
      WithSkillKeepsSchema(Snapshot(), name, description);
      var id := FreshId();
      skills := skills[id := Skill(id, name, description)];
      assert Snapshot() == d;
      r := Ok(id);
    }

    /** get_or_create on the profile keyed by user: an existing row is returned untouched. */
    method GetOrCreateProfile(u: UserId) returns (created: bool)
      requires Valid() && u in users
      modifies this
      ensures Valid() && u in profiles
      ensures created <==> u !in old(profiles)
      ensures Snapshot() == if created then WithProfile(old(Snapshot()), u) else old(Snapshot())
    {
      if u in profiles {
        return false;
      }
      ghost var d := WithProfile(Snapshot(), u);
      WithProfileKeepsSchema(Snapshot(), u);
      profiles := profiles[u := BlankProfile(u)];
      assert Snapshot() == d;
      created := true;
    }

    /**
     * Saves a new skill card. The skill column is NOT NULL and both foreign keys must
     * resolve; (profile, skill) is unique. Each violation is an integrity error.
     */
    method CreateCard(profile: UserId, skill: Option<SkillId>, selfRating: int, isPublic: bool)
      returns (r: Result<CardId>)
      requires Valid() && RatingInRange(selfRating)
      modifies this
      ensures Valid()
      ensures r.Err? <==> skill.None? || profile !in old(profiles) || skill.value !in old(skills) ||
                          CardPairTaken(old(cards), profile, skill.value)
      ensures r.Err? ==> r.error.Conflict? && Snapshot() == old(Snapshot())
      ensures skill.None? ==> r == Err(Conflict("skill_id not null"))
      ensures r.Ok? ==> r.value == old(nextId) &&
                        Snapshot() == WithCard(old(Snapshot()), profile, skill.value, selfRating, isPublic)
    {
      if skill.None? {
        return Err(Conflict("skill_id not null"));
      }
      if profile !in profiles || skill.value !in skills {
        return Err(Conflict("foreign key"));
      }
      if CardPairTaken(cards, profile, skill.value) {
        return Err(Conflict("unique (profile, skill)"));
      }
      ghost var d := WithCard(Snapshot(), profile, skill.value, selfRating, isPublic);
      WithCardKeepsSchema(Snapshot(), profile, skill.value, selfRating, isPublic);
      var id := FreshId();
      cards := cards[id := UserSkill(id, profile, skill.value, selfRating, isPublic)];
      assert Snapshot() == d;
      r := Ok(id);
    }

    /** Saves a new post, stamped with the current time. */
    method CreatePost(author: UserId, content: string, relatedSkill: Option<SkillId>) returns (r: Result<PostId>)
      requires Valid()
      modifies this
      ensures Valid()
      ensures r.Err? <==> author !in old(users) || (relatedSkill.Some? && relatedSkill.value !in old(skills))
      ensures r.Err? ==> r.error.Conflict? && Snapshot() == old(Snapshot())
      ensures r.Ok? ==> r.value == old(nextId) && Snapshot() == WithPost(old(Snapshot()), author, content, relatedSkill)
    {
      if author !in users || (relatedSkill.Some? && relatedSkill.value !in skills) {
        return Err(Conflict("foreign key"));
      }
      ghost var d := WithPost(Snapshot(), author, content, relatedSkill);
      WithPostKeepsSchema(Snapshot(), author, content, relatedSkill);
      var id := FreshId();
      posts := posts[id := Post(id, author, content, relatedSkill, clock)];
      clock := clock + 1;
      assert Snapshot() == d;
      r := Ok(id);
    }

    /** Saves a new endorsement, stamped with the current time; (endorser, card) is unique. */
    method CreateEndorsement(endorser: UserId, card: CardId, comment: Option<string>, rating: Option<int>)
      returns (r: Result<EndorsementId>)
      requires Valid() && OptionalRatingInRange(rating)
      modifies this
      ensures Valid()
      ensures r.Err? <==> endorser !in old(users) || card !in old(cards) ||
                          EndorsementPairTaken(old(endorsements), endorser, card)
      ensures r.Err? ==> r.error.Conflict? && Snapshot() == old(Snapshot())
      ensures r.Ok? ==> r.value == old(nextId) &&
                        Snapshot() == WithEndorsement(old(Snapshot()), endorser, card, comment, rating)
    {
      if endorser !in users || card !in cards {
        return Err(Conflict("foreign key"));
      }
      if EndorsementPairTaken(endorsements, endorser, card) {
        return Err(Conflict("unique (endorser, skill_card)"));
      }
      ghost var d := WithEndorsement(Snapshot(), endorser, card, comment, rating);
      WithEndorsementKeepsSchema(Snapshot(), endorser, card, comment, rating);
      var id := FreshId();
      endorsements := endorsements[id := Endorsement(id, endorser, card, comment, rating, clock)];
      clock := clock + 1;
      assert Snapshot() == d;
      r := Ok(id);
    }

    // ------------------------------------------------------------ updates

    /** Saves new content and skill link on an existing post; author and timestamp stay. */
    method UpdatePost(p: PostId, content: string, relatedSkill: Option<SkillId>) returns (r: Result<PostId>)
      requires Valid() && p in posts
      modifies this
      ensures Valid()
      ensures r.Err? <==> relatedSkill.Some? && relatedSkill.value !in old(skills)
      ensures r.Err? ==> r.error.Conflict? && Snapshot() == old(Snapshot())
      ensures r.Ok? ==> r.value == p && Snapshot() == WithPostEdited(old(Snapshot()), p, content, relatedSkill)
    {
      if relatedSkill.Some? && relatedSkill.value !in skills {
        return Err(Conflict("foreign key"));
      }
      ghost var d := WithPostEdited(Snapshot(), p, content, relatedSkill);
      WithPostEditedKeepsSchema(Snapshot(), p, content, relatedSkill);
      posts := posts[p := posts[p].(content := content, relatedSkill := relatedSkill)];
      assert Snapshot() == d;
      r := Ok(p);
    }

    /** Saves the editable profile fields; the user link is the key and never changes. */
    method UpdateProfile(u: UserId, bio: Option<string>, location: Option<string>, pictureUrl: Option<string>)
      requires Valid() && u in profiles
      requires OptionalWithin(location, LocationMaxLength) && OptionalWithin(pictureUrl, PictureUrlMaxLength)
      modifies this
      ensures Valid()
      ensures Snapshot() == WithProfileEdited(old(Snapshot()), u, bio, location, pictureUrl)
    {
      ghost var d := WithProfileEdited(Snapshot(), u, bio, location, pictureUrl);
      WithProfileEditedKeepsSchema(Snapshot(), u, bio, location, pictureUrl);
      profiles := profiles[u := SkillProfile(u, bio, location, pictureUrl)];
      assert Snapshot() == d;
    }

    /** Saves an endorsement's writable fields; moving it onto a card its endorser already endorsed clashes. */
    method UpdateEndorsement(e: EndorsementId, card: CardId, comment: Option<string>, rating: Option<int>)
      returns (r: Result<EndorsementId>)
      requires Valid() && e in endorsements && OptionalRatingInRange(rating)
      modifies this
      ensures Valid()
      ensures r.Err? <==> card !in old(cards) ||
                          EndorsementPairTakenByOther(old(endorsements), e, old(endorsements)[e].endorser, card)
      ensures r.Err? ==> r.error.Conflict? && Snapshot() == old(Snapshot())
      ensures r.Ok? ==> r.value == e && Snapshot() == WithEndorsementEdited(old(Snapshot()), e, card, comment, rating)
    {
      if card !in cards {
        return Err(Conflict("foreign key"));
      }
      if EndorsementPairTakenByOther(endorsements, e, endorsements[e].endorser, card) {
        return Err(Conflict("unique (endorser, skill_card)"));
      }
      ghost var d := WithEndorsementEdited(Snapshot(), e, card, comment, rating);
      WithEndorsementEditedKeepsSchema(Snapshot(), e, card, comment, rating);
      endorsements := endorsements[e := endorsements[e].(skillCard := card, comment := comment,
                                                          endorserRating := rating)];
      assert Snapshot() == d;
      r := Ok(e);
    }

    // ------------------------------------------------------------ deletes

    method DeleteEndorsement(e: EndorsementId)
      requires Valid()
      modifies this
      ensures Valid()
      ensures Snapshot() == AfterDeleteEndorsement(old(Snapshot()), e)
    {
      ghost var d := AfterDeleteEndorsement(Snapshot(), e);
      AfterDeleteEndorsementKeepsSchema(Snapshot(), e);
      endorsements := endorsements - {e};
      assert Snapshot() == d;
    }

    method DeletePost(p: PostId)
      requires Valid()
      modifies this
      ensures Valid()
      ensures Snapshot() == AfterDeletePost(old(Snapshot()), p)
    {
      ghost var d := AfterDeletePost(Snapshot(), p);
      AfterDeletePostKeepsSchema(Snapshot(), p);
      posts := posts - {p};
      assert Snapshot() == d;
    }

    /** Removes the cards in gone and collects the endorsements on them (CASCADE). */
    method RemoveCards(gone: set<CardId>)
      requires Valid()
      modifies this
      ensures Valid()
      ensures Snapshot() == WithoutCards(old(Snapshot()), gone)
    {
      ghost var d := WithoutCards(Snapshot(), gone);
      WithoutCardsKeepsSchema(Snapshot(), gone);
      DropEndorsementsOn(gone);
      cards := cards - gone;
      assert Snapshot() == d;
    }

    /** Walks the endorsements and keeps those not on a card in gone. */
    method DropEndorsementsOn(gone: set<CardId>)
      modifies this
      ensures endorsements == EndorsementsNotOn(old(endorsements), gone)
      ensures users == old(users) && skills == old(skills) && profiles == old(profiles)
      ensures cards == old(cards) && posts == old(posts) && nextId == old(nextId) && clock == old(clock)
    {
      endorsements := FilterRows(endorsements, (e: Endorsement) => e.skillCard !in gone);
    }

    method DeleteCard(c: CardId)
      requires Valid()
      modifies this
      ensures Valid()
      ensures Snapshot() == AfterDeleteCard(old(Snapshot()), c)
    {
      RemoveCards({c});
    }

    /** The cards a predicate selects, found by walking the table. */
    method SelectCards(keep: UserSkill -> bool) returns (found: set<CardId>)
      ensures found == set k | k in cards && keep(cards[k])
    {
      var rows := FilterRows(cards, keep);
      found := rows.Keys;
    }

    method DeleteSkill(s: SkillId)
      requires Valid()
      modifies this
      ensures Valid()
      ensures Snapshot() == AfterDeleteSkill(old(Snapshot()), s)
    {
      var gone := SelectCards((c: UserSkill) => c.skill == s);
      assert gone == CardsOfSkill(Snapshot(), s);
      RemoveCards(gone);
      ghost var d := WithoutSkillRow(Snapshot(), s);
      WithoutSkillRowKeepsSchema(Snapshot(), s);
      skills := skills - {s};
      UnlinkPosts(s);
      assert Snapshot() == d;
    }

    method DeleteProfile(u: UserId)
      requires Valid()
      modifies this
      ensures Valid()
      ensures Snapshot() == AfterDeleteProfile(old(Snapshot()), u)
    {
      AfterDeleteProfileKeepsSchema(Snapshot(), u);
      var gone := SelectCards((c: UserSkill) => c.profile == u);
      assert gone == CardsOfProfile(Snapshot(), u);
      RemoveCards(gone);
      ghost var d := Snapshot().(profiles := profiles - {u});
      profiles := profiles - {u};
      assert Snapshot() == d;
    }

    method DeleteUser(u: UserId)
      requires Valid()
      modifies this
      ensures Valid()
      ensures Snapshot() == AfterDeleteUser(old(Snapshot()), u)
    {
      DeleteProfile(u);
      ghost var d := WithoutUserRows(Snapshot(), u);
      WithoutUserRowsKeepsSchema(Snapshot(), u);
      users := users - {u};
      DropRowsBy(u);
      assert Snapshot() == d;
    }

    /** Walks the posts and clears each link to skill s. */
    method UnlinkPosts(s: SkillId)
      modifies this
      ensures posts == PostsUnlinked(old(posts), s)
      ensures users == old(users) && skills == old(skills) && profiles == old(profiles)
      ensures cards == old(cards) && endorsements == old(endorsements)
      ensures nextId == old(nextId) && clock == old(clock)
    {
      posts := MapRows(posts, (p: Post) => WithoutSkillLink(p, s));
    }

    /** Walks the posts and endorsements and drops those written or given by u. */
    method DropRowsBy(u: UserId)
      modifies this
      ensures posts == PostsNotBy(old(posts), u) && endorsements == EndorsementsNotBy(old(endorsements), u)
      ensures users == old(users) && skills == old(skills) && profiles == old(profiles)
      ensures cards == old(cards) && nextId == old(nextId) && clock == old(clock)
    {
      posts := FilterRows(posts, (p: Post) => p.author != u);
      endorsements := FilterRows(endorsements, (e: Endorsement) => e.endorser != u);
    }
  }
}
